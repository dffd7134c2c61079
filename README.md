# log_analyzer, modelled in Dafny

The log analyzer is a LangGraph agent that reads server logs through two tools. Those tools list the `*.log` files of a directory and return the last N lines of one file. The agent loops between a language model and its tools until the model stops asking for tool calls. A LangSmith evaluation script scores the agent's answers in four ways:

- keyword containment;
- structure containment;
- a min-score gate;
- an LLM judge whose reply has the form `SCORE:`/`REASON:`.

A loader picks the chat model from environment variables.

This project models the local logic of those pieces and proves properties about it:

- `agent_graph.dfy` (module `AgentGraph`) covers the graph of `main.py`:
  - the router on the agent's exit;
  - the fixed edges;
  - `call_model`'s one-message update;
  - the messages a stream of node updates carries.

  Runs are a pure step function with fuel. The language model and the tool node are function parameters.
- `evaluate.dfy` (module `Evaluate`) covers `evaluate.py`:
  - the contains, structure and min-score evaluators;
  - the loop that parses the judge's reply, as a method proved against a specification function over classified lines;
  - clamping and the "Judge error:" fallback;
  - `run_agent`'s nested loops over streamed node updates, as a method;
  - the experiment names;
  - the choice of the examples to run.
- `log_reader.dfy` (module `LogReader`) covers `tools/log_reader.py`:
  - `list_log_files` over a given directory probe;
  - `read_log_file` as a method that feeds the file's lines into a bounded deque. The deque is a class whose `Append` evicts the oldest line.
- `model_loader.dfy` (module `ModelLoader`) covers `model_loader.py`:
  - `_get_env`;
  - the per-provider loaders and the credentials they require;
  - the provider tables;
  - `load_model` as a pure function from the environment to a loaded model or an error message.
- `text.dfy` (module `Text`) states the Python `str` built-ins the code relies on, over `seq<char>`:
  - `lower`, `in`, `startswith`/`endswith`;
  - `strip`, `splitlines` and `join`;
  - `int()` and `str()` of integers.
- `environ.dfy` (module `Environ`) is `os.getenv` over a map.
- `wrappers.dfy` (module `Wrappers`) holds `Option` and `Result`.

Error paths are values rather than exceptions:

- a `ValueError` from `_get_env` or `load_model` is a `Failure` carrying the message;
- the tools' error strings are results, as in the source;
- the judge's `int()` failure is the `Unparsable` verdict;
- the `AttributeError` that the contains, structure and min-score evaluators raise for a run without outputs is a `Failure`.

## Model

| member | source | states |
|---|---|---|
| AgentGraph.Route | log_analyzer/main.py:34-37 | the router goes to `tools` exactly when the newest message has a non-empty `tool_calls` list, and to END otherwise |
| AgentGraph.RouteReadsOnlyLast | log_analyzer/main.py:36 | two histories with the same newest message route the same way |
| AgentGraph.NoToolCallsRoutesToEnd | log_analyzer/main.py:36 | a missing `tool_calls` attribute, a `None` one and an empty list all route to END |
| AgentGraph.CallModel | log_analyzer/main.py:22-24 | the update `call_model` returns holds exactly one message, the model's response to the whole history |
| AgentGraph.Step | log_analyzer/main.py:28-38 | a step never re-enters START; END is terminal; a step into END appends the model's answer, which asks for no tool calls |
| AgentGraph.EdgesOutOfNodes | log_analyzer/main.py:32-38 | START -> agent and tools -> agent are unconditional; only `agent` branches; END and `tools` are entered only from `agent`; END is terminal |
| AgentGraph.AgentStepAppendsResponse | log_analyzer/main.py:22-24 | an agent step appends exactly the model's one response and routes on it |
| AgentGraph.Run | log_analyzer/main.py:12-40 | `app.stream` under append-only merging: the final history extends the starting one; the streamed updates carry exactly the appended messages, in order; at most one chunk per step; a run that reaches END added at least one message and the newest asks for no tool calls |
| AgentGraph.FinishedRunHasNoToolCalls | log_analyzer/main.py:34-38 | a run that reached END added at least one message, and the newest one carries no tool calls |
| Evaluate.CountFound | log_analyzer/evaluate.py:87 | the found count is at most the number of expected strings; it equals that number iff every one is found, and is 0 iff none is found |
| Evaluate.RatioBounds | log_analyzer/evaluate.py:90 | `found / len(expected)` lies in [0, 1]; it is 1 iff all are found and 0 iff none is found |
| Evaluate.ExpectationCheck | log_analyzer/evaluate.py:82-92 | empty expectations give 1.0 and no comment; otherwise the score is found/len(expected) and the comment is "Found {found}/{len} expected ..."; 1.0 iff every expected string occurs, 0.0 iff none does |
| Evaluate.ContainsEvaluator | log_analyzer/evaluate.py:82-92 | fails with the AttributeError message iff the run has no outputs; otherwise key `contains_check`, a score in [0, 1], and 1.0 iff every expected keyword, lowercased, occurs in the lowercased output |
| Evaluate.StructureEvaluator | log_analyzer/evaluate.py:95-105 | fails with the AttributeError message iff the run has no outputs; otherwise key `structure_check`, a score in [0, 1], and 1.0 iff every expected structure element occurs |
| Evaluate.CountFoundAppend | log_analyzer/evaluate.py:87 | the found count over two concatenated lists is the sum of the counts over each |
| Evaluate.CountFoundOne | log_analyzer/evaluate.py:87 | a single expected string counts 1 when it occurs in the lowercased output and 0 otherwise; with `CountFoundAppend`, the count is the number of expected strings found |
| Evaluate.CountFoundIgnoresCase | log_analyzer/evaluate.py:87 | expected lists that agree up to case give the same found count |
| Evaluate.EvaluatorsIgnoreCase | log_analyzer/evaluate.py:83-100 | outputs equal up to case and expected strings equal up to case give identical contains and structure results |
| Evaluate.PredictionOfLowered | log_analyzer/evaluate.py:83 | an output that is already lowercased gives the same prediction as the original |
| Evaluate.MinScoreEvaluator | log_analyzer/evaluate.py:108-118 | fails iff the run has no outputs, as the evaluators it calls do; otherwise the score is 1.0 or 0.0, and 1.0 iff the mean of the contains and structure scores reaches `min_score`, 0.7 by default |
| Evaluate.MinScorePassesWhenAllFound | log_analyzer/evaluate.py:108-116 | an output holding every expected keyword and element passes any minimum up to 1.0 |
| Evaluate.MinScoreFailsWhenNothingFound | log_analyzer/evaluate.py:108-116 | an output holding none of them fails any positive minimum |
| Evaluate.ColonIndex | log_analyzer/evaluate.py:165 | the index found is the position of a colon, or the length when there is none |
| Evaluate.ColonIndexIs | log_analyzer/evaluate.py:165 | a colon with no colon before it is the one `split(":", 1)` splits at |
| Evaluate.AfterPrefixColon | log_analyzer/evaluate.py:164-167 | on a line starting with "SCORE:" or "REASON:", `split(":", 1)[1]` is the rest after the prefix |
| Evaluate.PrefixesExclusive | log_analyzer/evaluate.py:164-166 | no line starts with both prefixes, so the `elif` order never matters |
| Evaluate.Classify | log_analyzer/evaluate.py:164-167 | a line is a score line iff it starts with "SCORE:" and a reason line iff it starts with "REASON:"; the score literal is the stripped text after "SCORE:" and parses iff it is an integer literal of at most 4300 digits; the reason is the stripped text after "REASON:" |
| Evaluate.Turn | log_analyzer/evaluate.py:163-167 | one loop turn raises iff it has already raised or the line is a malformed score; once raised nothing changes; other lines change nothing; a score line keeps the reason and a reason line keeps the score |
| Evaluate.ScanSnoc | log_analyzer/evaluate.py:163-167 | reading one more line is one more turn of the loop body |
| Evaluate.StaysUnparsable | log_analyzer/evaluate.py:165 | once `int()` has raised, later lines change nothing |
| Evaluate.NoRaiseParses | log_analyzer/evaluate.py:162-167 | when no score is malformed, the loop ends with the score of the last SCORE: line and the reason of the last REASON: line |
| Evaluate.UnparsableIffRaise | log_analyzer/evaluate.py:163-165 | the loop raises iff some SCORE: line's remainder is not an integer |
| Evaluate.FirstRaiseStops | log_analyzer/evaluate.py:163-165 | it raises on the first malformed SCORE: line, with that line's literal |
| Evaluate.LastScoreLineWins | log_analyzer/evaluate.py:163-165 | the last SCORE: line sets the raw score, whatever came before it |
| Evaluate.NoScoreLineScoresZero | log_analyzer/evaluate.py:162 | with no SCORE: line the raw score is 0 |
| Evaluate.NoReasonLineFallsBack | log_analyzer/evaluate.py:162 | with no REASON: line the reason is "Could not parse judge response" |
| Evaluate.ParseJudgeReply | log_analyzer/evaluate.py:161-167 | the loop over the stripped reply's lines ends in the state given by the line-by-line specification `Scan` |
| Evaluate.ClampedScore | log_analyzer/evaluate.py:168 | the score lies in [0, 1]; it is 0 for raw <= 0 and 1 for raw >= 10; in between it is raw/10 |
| Evaluate.JudgeErrorComment | log_analyzer/evaluate.py:170-171 | the fallback comment starts with "Judge error: "; its detail is the "Exceeds the limit" message exactly for a well-formed literal over 4300 digits, and the invalid-literal message otherwise |
| Evaluate.LlmJudgeEvaluator | log_analyzer/evaluate.py:160-171 | key `llm_judge`; score in [0, 1]; a malformed SCORE: line gives 0.0 and a "Judge error:" comment; otherwise the score is the clamped last score and the comment is "[provider/model] " followed by the last reason |
| Evaluate.StripPrintedInt | log_analyzer/evaluate.py:165 | `strip` removes the one space before a printed integer and leaves the integer whole |
| Evaluate.WrittenScoreField | log_analyzer/evaluate.py:165 | on "SCORE: {n}", the field handed to `int()` is `str(n)` |
| Evaluate.WrittenScoreReadsBack | log_analyzer/evaluate.py:164-165 | a line "SCORE: {n}" is classified as a score line with literal `str(n)`; it reads back `n` iff `n` has at most 4300 digits, and `int()` raises otherwise |
| Evaluate.RunAgent | log_analyzer/evaluate.py:56-65 | the output is the content of the last message over all updates, in stream order, or "No response generated" when no update carried messages |
| AgentGraph.AllMessagesAppend | log_analyzer/evaluate.py:58-61 | collecting the messages of two stream segments is collecting each in turn |
| AgentGraph.EmittedCarriesStepOutput | log_analyzer/evaluate.py:58-61 | the update one graph step streams carries exactly the messages that step appended |
| Evaluate.FinishedRunAnswer | log_analyzer/evaluate.py:53-65 | on a run that reached END, `run_agent` answers with the content of the newest message, which asks for no tool calls |
| Evaluate.ExperimentPrefix | log_analyzer/evaluate.py:178-185 | the name is "{project}-", then LLM_PROVIDER ("openai" when unset), "-", MODEL_NAME ("default" when unset), then "-example-{N}" |
| Evaluate.ExperimentPrefixDistinct | log_analyzer/evaluate.py:178-185 | different example indices give different experiment names for the same project and model |
| Evaluate.SelectIndices | log_analyzer/evaluate.py:310-316 | an index outside [0, total) is an error with the source's message; a valid index gives exactly [index]; no index gives 0 .. total-1 in order |
| Text.Lower | log_analyzer/evaluate.py:83 | lowercasing keeps the length, leaves no upper-case letter, changes no other character, and maps each upper-case letter to its lower-case one |
| Text.LowerIdempotent | log_analyzer/evaluate.py:83 | lowercasing twice is lowercasing once |
| Text.Contains | log_analyzer/evaluate.py:87 | `needle in hay` holds iff the needle occurs at some position of the haystack |
| Text.StripLeft | log_analyzer/evaluate.py:161 | the result is a suffix of the input that does not start with whitespace |
| Text.StripLeftDropsSpaces | log_analyzer/evaluate.py:161 | everything dropped on the left is whitespace |
| Text.StripRight | log_analyzer/evaluate.py:161 | the result is a prefix of the input that does not end with whitespace |
| Text.StripRightDropsSpaces | log_analyzer/evaluate.py:161 | everything dropped on the right is whitespace |
| Text.StripSpec | log_analyzer/evaluate.py:161 | `strip` never lengthens; a non-empty result has no whitespace at either end; the result is empty iff the input is all whitespace |
| Text.StripLeadingSpace | log_analyzer/evaluate.py:165 | a leading space does not change what `strip` returns |
| Text.StripTrimmed | log_analyzer/evaluate.py:165 | a string with no whitespace at either end is its own `strip` |
| Text.SplitLines | log_analyzer/evaluate.py:163 | `splitlines` yields no lines exactly for the empty string |
| Text.SplitLinesHaveNoBoundaries | log_analyzer/evaluate.py:163 | no line that `splitlines` yields holds a line boundary |
| Text.CutSpec | log_analyzer/evaluate.py:163 | the first line holds no boundary, it ends at one boundary ("\r\n" counting as one) or at the end of the string, and a lone "\r" is not followed by "\n" |
| Text.SplitLinesRebuild | log_analyzer/evaluate.py:163 | the input is the lines `splitlines` returns, each followed by the one boundary that ended it: "\r\n" counts as one, only the last line may lack one, and a final boundary opens no empty line |
| Text.ConcatAppend | log_analyzer/tools/log_reader.py:40 | `"".join` of two concatenated lists is the concatenation of the two joins |
| Text.NatToString | log_analyzer/evaluate.py:91 | `str(n)` is a non-empty string of digits, one digit exactly when n < 10, and starts with '0' only for n = 0 (no leading zeros) |
| Text.ParseDigits | log_analyzer/evaluate.py:165 | an accepted digit string starts and ends with a digit |
| Text.ParseInt | log_analyzer/evaluate.py:165 | `int("")` fails, and so does any literal of more than 4300 digits |
| Text.ParseDigitsSpec | log_analyzer/evaluate.py:165 | a digit run is accepted iff it is non-empty, starts and ends with a digit, holds only digits and single underscores between them; its value is that of the digits with the underscores removed |
| Text.ParseIntSpec | log_analyzer/evaluate.py:165 | `int()` succeeds iff the text is an optional sign followed by such a digit run of at most 4300 digits (Python's default limit), and then gives the signed value of the digits |
| Text.ParseDigitsOfNatToString | log_analyzer/evaluate.py:165 | reading back the digits of `str(n)` gives n |
| Text.ParseIntOfIntToString | log_analyzer/evaluate.py:165 | `int(str(i)) == i` for every integer of at most 4300 digits; for a longer one `int()` raises |
| Text.IntToStringInjective | log_analyzer/evaluate.py:185 | `str` is injective on integers |
| LogReader.FilterLogNames | log_analyzer/tools/log_reader.py:22 | every name kept matches `*.log`, and every matching entry is kept as often as it occurs |
| LogReader.ListLogFiles | log_analyzer/tools/log_reader.py:12-24 | not a directory gives ["Error: {LOG_DIR} is not a valid directory."], with LOG_DIR read from LOG_DIRECTORY ("./logs" when unset); a listing failure gives one "Error listing logs: " string; a directory gives exactly its `*.log` entries |
| LogReader.NoMatchGivesEmptyList | log_analyzer/tools/log_reader.py:22 | a directory with no `*.log` entry gives [], not an error |
| LogReader.TranslateNewlines | log_analyzer/tools/log_reader.py:39 | text-mode reading leaves no '\r', never lengthens, and leaves text without '\r' alone |
| LogReader.TranslateNewlinesUnits | log_analyzer/tools/log_reader.py:39 | "\r\n" reads as "\n", a lone "\r" reads as "\n", and any other character reads as itself |
| LogReader.TranslateNewlinesAppend | log_analyzer/tools/log_reader.py:39 | text split anywhere but inside a "\r\n" pair translates as its two parts do, so with the single translations each break is replaced where it stands |
| LogReader.TranslateNewlinesCounts | log_analyzer/tools/log_reader.py:39 | each "\r\n", each lone "\r" and each "\n" of the raw text becomes exactly one "\n", and dropping "\r" and "\n" from both sides leaves the same text |
| LogReader.FileLines | log_analyzer/tools/log_reader.py:39-40 | the lines are non-empty; each but the last ends with '\n'; none holds an inner '\n' |
| LogReader.FileLinesRoundTrip | log_analyzer/tools/log_reader.py:39-40 | joining the file's lines gives its text back |
| LogReader.TailOfAppend | log_analyzer/tools/log_reader.py:40 | appending to a bounded tail and trimming equals trimming the appended sequence |
| LogReader.LineDeque.constructor | log_analyzer/tools/log_reader.py:40 | a new deque is empty with the given maxlen |
| LogReader.LineDeque.Append | log_analyzer/tools/log_reader.py:40 | appending keeps the last `maxlen` of the old items plus the new line |
| LogReader.ReadLogFile | log_analyzer/tools/log_reader.py:26-43 | a missing file gives "Error: File {filename} not found in {LOG_DIR}", with LOG_DIR read from LOG_DIRECTORY; a failing `open` gives "Error reading log: " and its cause; for a file that opens, a count outside the 64-bit `ssize_t` range gives "Error reading log: Python int too large to convert to C ssize_t" and any other negative count gives "Error reading log: maxlen must be non-negative", both before any line is read; with a valid count, a failing read gives "Error reading log: " and its cause, and otherwise the last min(n, L) lines joined with their line ends |
| LogReader.TailTextIsSuffix | log_analyzer/tools/log_reader.py:40 | the result is the file's text with a prefix of whole lines removed |
| LogReader.TailTextWhole | log_analyzer/tools/log_reader.py:40 | n >= L gives the whole content |
| LogReader.TailTextZero | log_analyzer/tools/log_reader.py:40 | n = 0 gives "" |
| LogReader.TailLength | log_analyzer/tools/log_reader.py:40 | the tail holds exactly min(n, L) lines, the last ones |
| ModelLoader.ProviderTablesAgree | log_analyzer/model_loader.py:138-158 | the loader table and the default-model table both have exactly the seven supported providers as keys, and each name maps to its own loader |
| ModelLoader.GetEnvVar | log_analyzer/model_loader.py:34-42 | fails iff the variable is required and its value (or the default when it is unset) is None or empty, with the source's message; otherwise it returns the value, or the default when unset |
| ModelLoader.OptionalGetEnvVar | log_analyzer/model_loader.py:34-36 | not required and with a default, `_get_env` is `os.getenv` |
| ModelLoader.FirstUnset | log_analyzer/model_loader.py:75-76 | gives the first of the required keys that is unset or empty, or none when all are set |
| ModelLoader.RequiredKeys | log_analyzer/model_loader.py:49-135 | the variables each loader checks, in order: only Ollama needs none, every other provider checks its "_API_KEY" variable first, and none is checked twice |
| ModelLoader.LoadOpenAI | log_analyzer/model_loader.py:49-56 | fails iff OPENAI_API_KEY is unset or empty; otherwise an OpenAI client for the model name |
| ModelLoader.LoadAnthropic | log_analyzer/model_loader.py:59-66 | fails iff ANTHROPIC_API_KEY is unset or empty |
| ModelLoader.LoadAzure | log_analyzer/model_loader.py:69-81 | fails iff AZURE_OPENAI_API_KEY or, after it, AZURE_OPENAI_ENDPOINT is unset or empty, naming the first; api_version defaults to "2024-02-01" |
| ModelLoader.LoadOllama | log_analyzer/model_loader.py:84-91 | never fails; base_url defaults to "http://localhost:11434" |
| ModelLoader.LoadGoogle | log_analyzer/model_loader.py:94-103 | fails iff GOOGLE_API_KEY is unset or empty |
| ModelLoader.LoadGrok | log_analyzer/model_loader.py:106-122 | fails iff XAI_API_KEY is unset or empty; passes that key; base_url defaults to "https://api.x.ai/v1" |
| ModelLoader.LoadGroq | log_analyzer/model_loader.py:125-135 | fails iff GROQ_API_KEY is unset or empty |
| ModelLoader.LoadProvider | log_analyzer/model_loader.py:138-146 | the registered loader of every provider keeps the loader contract |
| ModelLoader.ProviderName | log_analyzer/model_loader.py:183 | the provider name has no upper-case letter; it is "openai" when LLM_PROVIDER is unset and otherwise the variable with only its upper-case letters changed |
| ModelLoader.LoadModel | log_analyzer/model_loader.py:165-203 | an unsupported lowercased LLM_PROVIDER fails with the source's message; otherwise success iff the provider's credentials are set; the model is MODEL_NAME when set (even if empty) and the provider's default otherwise; tools are bound and a tool node is built iff the tool list is non-empty |
| ModelLoader.UnsupportedProviderIgnoresCredentials | log_analyzer/model_loader.py:183-193 | for an unsupported provider, no other variable changes the outcome: no credential is consulted |
| ModelLoader.DefaultsToOpenAI | log_analyzer/model_loader.py:183-190 | with LLM_PROVIDER and MODEL_NAME unset, the result is OpenAI's "gpt-5-mini", available iff OPENAI_API_KEY is set and non-empty |

## Left out

- Evaluate.MinScoreEvaluator: the comment "Average {avg:.2f} meets/below minimum {min_score}" is not modelled (`:.2f` float formatting); the result's comment is `None`.
- Evaluate.LlmJudgeEvaluator: the judge's reply is a parameter. The following are not part of this model:
  - `load_judge_model`, which raises outside the `try`;
  - the prompt built from the example;
  - exceptions raised by `judge.invoke` itself.
- Evaluate.JudgeErrorComment: the contract states the "Judge error: " prefix and which of the two ValueError messages follows, not the whole detail. A malformed literal with more than 4300 digits before the fault gets the invalid-literal message, where CPython may report the digit limit first. The detail quotes the literal in single quotes, where Python's `repr` would switch to double quotes for a literal that contains a single quote.
- Scores are exact reals. Float rounding of `found / len(expected)` and of the mean is not modelled. `round(x / 10, 2)` is treated as the exact tenth.
- Text.Lower: only ASCII letters are lowercased; Unicode case mapping is not modelled.
- Text.NatToString: `str()` of an integer with more than 4300 digits raises ValueError in Python, and this is not modelled. `SelectIndices` and `ExperimentPrefix` build their text for such an index, where the source raises. The command line cannot pass such an index, because argparse's `int` already rejects it.
- Text.ParseInt: only ASCII digits are accepted, while Python's `int()` also accepts other Unicode decimal digits. The digit limit is Python's default of 4300; a limit changed through `sys.set_int_max_str_digits` or `PYTHONINTMAXSTRDIGITS` is not modelled. The input is always already stripped, so `int()`'s own whitespace stripping is not needed.
- LogReader.ReadLogFile: `ssize_t` is taken to be 64 bits wide, as on the usual 64-bit platforms.
- Evaluate.RunAgent: every message has a `content`; the `str(last)` fallback for a message without one is not modelled.
- The `add_messages` reducer is modelled as plain appending; its replacement of messages with the same id is not modelled.
- AgentGraph.Run: runs take a fuel bound, because the agent/tools cycle has no bound in the code; termination is not claimed. LangGraph's recursion limit (a `GraphRecursionError` after 25 super-steps by default) is not modelled, and neither are exceptions from the model or the tool node. Both make `app.stream`, and with it `run_agent`, raise, so `FinishedRunAnswer` also covers runs the library would cut off.
- The language model, the tool node, `bind_tools`, `ToolNode` and the chat client classes are abstract: parameters, or records of their settings.
- `ImportError` when a provider package is missing is not modelled.
- The filesystem is a parameter. The following are not modelled:
  - the order of `glob` results;
  - UTF-8 decoding with `errors='replace'`;
  - joining LOG_DIR with the filename, including the absence of any check against path traversal.
- LangSmith client operations are not part of this model: dataset handling, `evaluate()` and project URLs.
- The following are not part of this model either:
  - the `fcntl` lock of `run_evaluation`;
  - `agent_predict`'s throttling;
  - printing;
  - argument parsing;
  - `load_dotenv`;
  - the environment mutations for the temperature override;
  - `load_evaluation_dataset`.
- The experiment name uses LLM_PROVIDER as written, without lowercasing, as the code does; no relation to the provider `load_model` resolves is claimed.
