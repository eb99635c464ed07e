# UnifiedToolHub tool-call evaluation core, in Dafny

This project models the part of UnifiedToolHub that decides how well a model's tool
calls match the golden ones, and the record transformers and validators around it.
The model is functional: one closed JSON value type (`JsonValues.Json`), message
records, and pure functions with contracts. Each Python exception the code does not
catch becomes an `Err` of the `Wrappers.Result` type, so error paths stay visible.

- **Scoring engine.** `Metrics`, `Comparators`, `Assignment` and `Scoring` cover
  `evaluate/metrics.py`. This includes string trimming and grouping by tool name, the
  strict and the BFCL-style parameter comparators, and the pairing of golden and
  predicted calls of one name. The pairing is specified as a heaviest injective pairing
  of size min(g, p) under the weight `1000·exact + matched`; a brute-force search is
  proved optimal. Four round metrics are derived from it.
- **Round enumeration and aggregation.** `Messages`, `Rounds`, `Evaluate` and
  `SingleRound` cover `evaluate/evaluate_model.py`. A round is a prefix ending at a
  non-empty tool call. The prompt history is golden, and there are two aggregation
  modes: `avg`, and sequential, where the exact-match flag is cleared only after a round
  is scored. Dataset normalisation and the report keys are modelled too.
- **Data selection.** `Selection` covers `run.py`: the truncation modes, the two-level
  and/or tag filter, dataset preparation, and the Size-weighted average.
- **Validators and converters.**
  - `RawSamples`, `SampleChecks` and `DatasetStats` cover `tag/dataset_analyzer.py`.
  - `Button` covers `datasets/source/button.py`.
  - `FakeResponse` covers `datasets/source/fake_response.py`.
  - `Training` covers `train/prepare_datasets.py`.
  - `Bfcl` covers `datasets/source/bfcl.py`.
  - `Tagger` covers `tag/normal_tagger.py`.

Ratios and averages are exact `real`s. `json.dumps` equality is structural equality on
`Json`: key order counts, and `1`, `1.0` and `true` differ. Python `==` is `PyEq`:
numbers compare by value, and dicts ignore key order. The tokenizer, the chat-template
formatter, the model call in the taggers, the tool-response generator and the tool
lookup are function parameters.

## Model

| member | source | states |
|---|---|---|
| Text.Strip | evaluate/metrics.py:21-23 | `str.strip()`: the result is the slice of the input left once the leading and trailing whitespace is cut, it neither starts nor ends with whitespace, and a string without outer whitespace is unchanged |
| Text.StripUnique | evaluate/metrics.py:21-23 | any slice whose surroundings are whitespace and which neither starts nor ends with whitespace is the stripped string |
| Text.StripIdempotent | evaluate/metrics.py:21-23 | stripping twice is stripping once |
| Text.Find | train/prepare_datasets.py:29 | `str.find`: the first occurrence at or after the start, or -1 iff there is none (also line 40) |
| Text.Split | datasets/source/button.py:74 | `str.split(c)` yields at least one part and no part contains the separator |
| Text.SplitHead | datasets/source/button.py:74 | the first part is the text before the first separator |
| Text.JoinSplit | datasets/source/button.py:74 | joining the parts with the separator gives back the string |
| JsonValues.Lookup | datasets/source/button.py:161 | a dict lookup is absent iff the key is missing |
| JsonValues.Assign | datasets/source/button.py:164-165 | assigning an existing key keeps the key order; a new key is appended |
| JsonValues.AssignLookup | datasets/source/button.py:164-165 | after `d[k] = v` the key holds `v`, every other key is unchanged, and keys stay distinct |
| JsonValues.PyIn | run.py:83-85 | Python `in`: membership for a list, substring for strings, key for a dict, and a `TypeError` otherwise |
| JsonValues.PyLen | datasets/source/bfcl.py:36 | `len` is defined for strings, lists and dicts only |
| JsonValues.Items | datasets/source/bfcl.py:21 | iteration is defined exactly where `len` is, with as many items as `len`; a list iterates over its elements (also lines 29-35) |
| Metrics.LastStripped | evaluate/metrics.py:14-19 | a trimmed key has a value iff some original key strips to it |
| Metrics.StripIntoLookup | evaluate/metrics.py:14-19 | in the trimmed dict each key holds the value of the LAST original key stripping to it, and other keys are untouched |
| Metrics.StripIntoDistinct | evaluate/metrics.py:14-19 | trimming keeps dict keys distinct |
| Wrappers.MapAllOk | datasets/source/button.py:13-41 | a loop converting each element completes iff every element converts |
| Wrappers.MapAllAt | datasets/source/button.py:13-41 | the result at each position is the conversion of the element there |
| Wrappers.MapAllError | datasets/source/button.py:13-41 | a failed loop raises the error of the first element that does not convert, all earlier ones converting |
| Wrappers.GatherOk | evaluate/evaluate_model.py:326-356 | a loop that keeps the values of the conversions giving one completes iff every element converts, and keeps at most one value per element |
| Wrappers.GatherFull | evaluate/evaluate_model.py:343-356 | the loop keeps one value per element iff every element gives one (no `continue` was taken) |
| Wrappers.GatherAt | evaluate/evaluate_model.py:326-356 | with one value per element, the value at each position is the one that element gives |
| Wrappers.GatherAll | evaluate/metrics.py:34-44 | every value the loop keeps has a property when every conversion giving a value gives one with it |
| JsonValues.ShowExamples | datasets/source/button.py:160 | `f"{n}"` prints a name as Python's `str`, so the floats `1.5` and `2.5` print as `1.5` and `2.5` and stay apart |
| JsonValues.ShowWholeExamples | datasets/source/button.py:160 | the float `2.0` prints as `2.0` and the integer `2` as `2`, so they stay apart |
| JsonValues.ShowListExample | datasets/source/button.py:160 | a list name prints as Python's `str` of a list, `[1, 'a']` |
| JsonValues.KeyText | datasets/source/fake_response.py:66 | `json.dumps` writes every dict key as text; only lists and dicts cannot be keys, and a string key is written as it is |
| Metrics.StripStrings | evaluate/metrics.py:6-26 | a string is stripped, a dict stays a dict, and every other value (lists included) is returned unchanged |
| Metrics.StripDict | evaluate/metrics.py:11-20 | the trimmed dict's keys are exactly the stripped input keys, without repeats; each key holds the (trimmed) value of the last field that strips to it, and in strict mode that value is untouched |
| Metrics.StripDistinct | evaluate/metrics.py:14-19 | a trimmed dict never repeats a key |
| Metrics.WellFormedCallsSpec | evaluate/metrics.py:34-44 | the loop raises iff a kept item (a dict with `name` and `parameters`) has a non-string name; at most one call per item, and every item is kept iff every item has that shape |
| Metrics.WellFormedCallsAt | evaluate/metrics.py:38-42 | when every item is kept, the call at each position is that item's stripped name with its trimmed parameters |
| Metrics.CallArgsDistinct | evaluate/metrics.py:38-42 | every kept call whose arguments are a dict has distinct argument keys after trimming |
| Metrics.AddCallSpec | evaluate/metrics.py:45-47 | appending a call keeps group names distinct, opens a group only for a new name, and extends exactly that name's list by the call's arguments |
| Metrics.NamedEmpty | evaluate/metrics.py:45-47 | a name's reference list is empty iff no call carries that name |
| Metrics.NamedMembers | evaluate/metrics.py:45-47 | every argument in a name's reference list comes from a call of that name |
| Metrics.GroupedSpec | evaluate/metrics.py:29-48 | group names are distinct and are exactly the names called; each group holds its name's arguments in original order; the group sizes add up to the number of calls |
| Comparators.Compare | evaluate/metrics.py:51-107 | either comparator's result counts every golden parameter, matches at most all of them, and is exact iff all match |
| Comparators.CompareSimple | evaluate/metrics.py:51-62 | total is the number of golden keys; exact iff every golden key's predicted value (null when missing) is structurally equal to the golden value; it fails only on a non-dict |
| Comparators.ExtraKeysIgnored | evaluate/metrics.py:54-55 | two predictions that agree on the golden keys get the same counts, so predicted-only keys are ignored |
| Comparators.SimpleExamples | evaluate/metrics.py:55-57 | a missing key matches a golden null; `1` does not match `1.0` or `true` although Python's `==` accepts both |
| Comparators.FilterNull | evaluate/metrics.py:72 | the filtered list holds no null, only elements of the input, and is empty iff the input is all nulls |
| Comparators.SortedEq | evaluate/metrics.py:86 | `sorted(a) == sorted(b)` raises exactly when one list is not sortable, and is true only for lists of equal length |
| Comparators.SortedEqNumbers | evaluate/metrics.py:86 | two number lists sort equal iff they hold the same numeric values, each as often |
| Comparators.SortedEqStrings | evaluate/metrics.py:86 | two string lists sort equal iff they hold the same strings, each as often |
| Comparators.SortedEqMixed | evaluate/metrics.py:86 | any other sortable lists, lists of lists among them, sort equal iff one rearranges the other up to `==` |
| Comparators.MatrixRowsSortedEq | evaluate/metrics.py:86 | a list of two number rows sorts equal to itself and to its two rows swapped |
| Comparators.CompareBfcl | evaluate/metrics.py:64-107 | counts are coherent and total the golden keys; an empty golden dict is exact; a non-dict golden value or prediction raises |
| Comparators.CompareBfclCount | evaluate/metrics.py:67-107 | on two dicts the comparison raises iff some golden key's test raises, matches exactly the golden keys whose test accepts the prediction, and is exact iff all of them do |
| Comparators.MatrixArgumentMatched | evaluate/metrics.py:67-107 | a golden matrix argument of two number rows matches the prediction holding the rows in the other order |
| Comparators.BfclAccepts | evaluate/metrics.py:98-101 | two dicts reach the undefined name `compare_params`, which raises `NameError` |
| Comparators.Scan | evaluate/metrics.py:73-93 | once an alternative is found, the scan reports found |
| Comparators.ScanOk | evaluate/metrics.py:73-93 | the scan over the golden alternatives raises iff some alternative reached before the first match raises |
| Comparators.ScanValue | evaluate/metrics.py:73-93 | when it raises nothing, the scan reports found iff the flag was set or some alternative is found or matches |
| Comparators.ScalarAccepts | evaluate/metrics.py:103 | membership in a golden list, or equality with a scalar golden value; a missing prediction is accepted when `''` is in the golden value, which every golden string satisfies |
| Comparators.SkippedAlternatives | evaluate/metrics.py:73-93 | a non-list alternative, which never equals the predicted list, or an alternative of nulls only (the `zip` over nothing) is skipped: the scan continues with the rest as if it were absent |
| Comparators.DictAlternativeFound | evaluate/metrics.py:77-83 | a non-empty all-dict alternative is found after the first zipped pair, whatever the nested comparison returns |
| Comparators.ListAlternativeMatches | evaluate/metrics.py:70-97 | a golden list accepts a prediction at the first alternative that sorts equal to the filtered prediction, whatever kinds of alternative come before it, as long as none raises |
| Comparators.StringGoldAcceptsMissing | evaluate/metrics.py:103 | a golden string parameter accepts a missing prediction, whatever the string |
| Assignment.Best | evaluate/metrics.py:151-162 | the search returns a pairing of the remaining rows that fits the free columns and assigns exactly the number of pairs asked for |
| Assignment.BestIsOptimal | evaluate/metrics.py:151-162 | no admissible pairing of the remaining rows weighs more than the one the search returns |
| Assignment.BestColIsOptimal | evaluate/metrics.py:151-162 | the column scan finds a pairing at least as heavy as any admissible one whose first column is not before the scan start |
| Assignment.FitsIsInjective | evaluate/metrics.py:151-165 | the recursive admissibility test is equivalent to "columns in range, unused and pairwise distinct" |
| Assignment.BestPairing | evaluate/metrics.py:151-165 | the pairing the scorer uses has one entry per golden row and exactly min(g, p) real, injective pairs |
| Assignment.BestPairingIsOptimal | evaluate/metrics.py:140-165 | no pairing of min(g, p) golden and predicted calls has a larger total of `1000·exact + matched` |
| Scoring.CountRow | evaluate/metrics.py:136-143 | a row holds the comparator's result for each predicted call, in order, and fails iff some comparison fails |
| Scoring.CountMatrixSpec | evaluate/metrics.py:135-143 | the matrix holds one comparator result per golden/predicted pair |
| Scoring.Weights | evaluate/metrics.py:142 | the weight of a pair is `1000·exact + matched`, the negated cost |
| Scoring.PairSumsSpec | evaluate/metrics.py:164-169 | a pairing's weight is 1000 per exact pair plus the matched parameters, exact pairs are at most the assigned ones, and matched is at most total |
| Scoring.ScoreGroup | evaluate/metrics.py:128-169 | without a predicted group of the same name nothing is paired and only the golden calls are counted; otherwise min(g, p) name matches are counted and the tallies stay within bounds |
| Scoring.ScoreGroups | evaluate/metrics.py:128-169 | the tallies over all golden groups stay within bounds and count every golden call |
| Scoring.ScoreCalls | evaluate/metrics.py:120-180 | all four metrics lie in [0, 1]; AllTools is 0 or 1 and is 1 iff PerTool is 1; with no golden call every metric is `int(no predicted call)` |
| Scoring.RoundScore | evaluate/metrics.py:110-180 | the round metrics of raw golden and predicted lists: in [0, 1], AllTools agrees with PerTool; a golden value that cannot be iterated raises `TypeError` |
| Scoring.Ratio | evaluate/metrics.py:171-173 | a ratio of counts with `a <= b` lies in [0, 1] and is 1 iff `a == b` |
| Scoring.ScoreGroupsLocal | evaluate/metrics.py:128-132 | scoring looks at the predicted groups only through the golden names |
| Scoring.GroupsAgree | evaluate/metrics.py:29-48 | predictions with the same calls under a name have the same group for that name |
| Scoring.PredictedOnlyNamesIgnored | evaluate/metrics.py:128-169 | tool names that appear only in the prediction never change any metric |
| Scoring.ScoreGroupsFull | evaluate/metrics.py:130-132 | full name matches mean every golden group has a predicted group at least as large |
| Scoring.AllToolsMeans | evaluate/metrics.py:171-176 | AllTools is 1 iff no golden item was dropped and every golden call has an exact pair; then every golden name has enough predicted calls |
| Scoring.AllToolsNeedsWellFormedGold | evaluate/metrics.py:171 | PerTool divides by the raw golden length, so AllTools = 1 forces every golden item to be a well-formed call |
| Scoring.SelfCompare | evaluate/metrics.py:51-62 | a dict with distinct keys matches itself on every parameter |
| Scoring.ExactGroup | evaluate/metrics.py:151-169 | when some pairing pairs every golden call with an exact prediction, the heaviest pairing does too |
| Scoring.PairTotalBound | evaluate/metrics.py:164-169 | no pairing counts more parameters than the golden calls hold |
| Scoring.PermutedGroup | evaluate/metrics.py:140-169 | a golden group scored against predicted calls of its name holding the same arguments in any order has every golden call exact |
| Scoring.PermutedGroups | evaluate/metrics.py:128-169 | the same for every golden group: the exact count is the number of golden calls |
| Scoring.PermutedPredictionScoresAllTools | evaluate/metrics.py:110-180 | predicting the golden list of well-formed calls in any order scores AllTools = 1 |
| Scoring.PerfectPredictionScoresAllTools | evaluate/metrics.py:110-180 | predicting exactly the golden list of well-formed calls scores AllTools = 1 |
| Scoring.ToolAccuracyMeans | evaluate/metrics.py:130-173 | ToolAccuracy is the sum over golden names of min(golden calls, predicted calls) divided by the number of golden calls |
| Scoring.GroupsPermuted | evaluate/metrics.py:29-48 | reordered predictions have a group for exactly the same names, of the same sizes |
| Scoring.ToolAccuracyPermutationInvariant | evaluate/metrics.py:110-173 | ToolAccuracy does not depend on the order of the predicted calls |
| Metrics.WellFormedCallsPermuted | evaluate/metrics.py:110-126 | reordered items keep the same calls, reordered |
| Metrics.NamedCount | evaluate/metrics.py:29-48 | each argument value occurs in a name's group as often as the call with that name and value occurs |
| Metrics.NamedPermuted | evaluate/metrics.py:29-48 | reordered calls give each name a reordered group |
| Assignment.PermutationPairing | evaluate/metrics.py:151-165 | two lists holding the same elements have an admissible square pairing joining equal elements |
| Assignment.MatchingOf | evaluate/metrics.py:151-165 | two lists holding the same elements have a matching that pairs every position with an equal element |
| Wrappers.GatherKept | evaluate/metrics.py:110-126 | a successful gather keeps exactly the converted values of the kept items |
| Wrappers.KeptPermuted | evaluate/metrics.py:110-126 | reordered items keep the same converted values |
| Comparators.SimpleFields | evaluate/metrics.py:54-61 | every golden key is counted once, and the row is exact iff each golden key's predicted value equals the golden one |
| Comparators.BfclFields | evaluate/metrics.py:67-107 | the BFCL comparison counts each golden key once and keeps matched within total |
| Comparators.BfclFieldsOk | evaluate/metrics.py:67-107 | the loop over golden keys raises iff some key's test raises |
| Comparators.BfclFieldsCount | evaluate/metrics.py:67-107 | when it raises nothing, the loop matches the number of golden keys whose test accepts the prediction |
| Comparators.BfclFieldsExact | evaluate/metrics.py:67-107 | when it raises nothing, the loop is exact iff every golden key accepts the prediction |
| Assignment.BestCol | evaluate/metrics.py:151-162 | the column scan fails iff every column from the start is used; otherwise it pairs every remaining row with free columns, assigning exactly the number asked for |
| Messages.LastIndex | evaluate/evaluate_model.py:337-338 | the position of the last message with a role: absent iff no message has it, otherwise a message with that role and none after it |
| Rounds.IsRoundEnd | evaluate/evaluate_model.py:322 | a message ends a round iff its role is `tool_call` or `tool_call_ground_truth` and its content is non-empty; an unsized content of such a role raises |
| Rounds.RoundEnds | evaluate/evaluate_model.py:319-325 | the round ends are increasing positions inside the sample, and a position is among them iff its message ends a round |
| Rounds.RoundsOf | evaluate/evaluate_model.py:324 | round k is the prefix `data[:i+1]` of the k-th round end |
| Rounds.RoundsArePrefixes | evaluate/evaluate_model.py:319-325 | every round is a prefix of the sample ending at a round end, and every round end gives a round |
| Rounds.History | evaluate/evaluate_model.py:331-342 | the chat history holds no `id`, `current_date` or `candidate_tools` message, only messages of the input |
| Rounds.HistoryAppend | evaluate/evaluate_model.py:331-342 | appending a message extends the history by it exactly when its role is not a meta role |
| Rounds.ToolList | evaluate/evaluate_model.py:338-340 | the tool list is always truthy: an empty one becomes `[{}]`, a non-empty one is kept |
| Rounds.Collect | evaluate/evaluate_model.py:328-342 | the history is `History` of the messages; the tools come from the last `candidate_tools` message and the date from the last `current_date` one; an unsized tool list raises |
| Rounds.PromptFor | evaluate/evaluate_model.py:328-356 | a round has no prompt iff its history has no `candidate_tools` message; the prompt's history is the golden history |
| Rounds.PromptsAtBuilt | evaluate/evaluate_model.py:326-356 | the prompt loop succeeds iff every round's prompt can be built, and it yields at most one prompt per round |
| Rounds.PromptsAtFull | evaluate/evaluate_model.py:326-356 | the prompt list is as long as the round list iff every round has tools, and then it holds each round's prompt in order |
| Rounds.PrepareSample | evaluate/evaluate_model.py:319-356 | a sample's rounds are its prefixes at the round ends, each a round, with at most one prompt each |
| Rounds.Extend | evaluate/evaluate_model.py:324-325 | adding a sample appends its rounds and prompts and records its round count |
| Rounds.Prepare | evaluate/evaluate_model.py:319-356 | `data_num` has one count per sample, the counts add up to the number of rounds, and every entry of `new_dataset` is a round |
| Rounds.PrepareCountsAre | evaluate/evaluate_model.py:325 | `data_num[j]` is the number of round ends of sample j |
| Evaluate.ScoreRound | evaluate/evaluate_model.py:396-402 | an empty round raises `IndexError` at `data[-1]`; every metric of a scored round lies in [0, 1] |
| Evaluate.ScoreFrom | evaluate/evaluate_model.py:383-402 | one scored round per round; scoring any round needs at least as many prompts as rounds (`prompt_list[cur_idx+j]`) |
| Evaluate.ScoreFromRound | evaluate/evaluate_model.py:384-402 | scored round i holds the model's answer to prompt i, the metrics of that round, its golden answer (the round's last content) and its sample id |
| Evaluate.ScoreFromFails | evaluate/evaluate_model.py:397-402 | a round whose scoring fails makes the whole scoring fail |
| Evaluate.ScoredInUnit | evaluate/evaluate_model.py:397-402 | every scored round's metrics lie in [0, 1] |
| Evaluate.StepWithin | evaluate/evaluate_model.py:391-418 | one round adds between 0 and `1/data_num[i]` to each metric sum when it counts, and nothing when it does not |
| Evaluate.SampleLoopWithin | evaluate/evaluate_model.py:381-434 | one sample adds at most `rounds/data_num[i]` to each metric sum |
| Evaluate.CountedMeans | evaluate/evaluate_model.py:412-418 | in sequential mode round k counts iff every earlier round of the sample had AllTools = 1, so the first failing round still counts (also lines 431-432) |
| Evaluate.SaveListAt | evaluate/evaluate_model.py:419-429 | saved record i carries the id `<sample id>_round_<j+1>`, the golden answer and the metrics of round i |
| Evaluate.SampleLoopScores | evaluate/evaluate_model.py:404-418 | the sample loop adds `v/data_num[i]` for exactly the first `Counted` rounds: all of them in `avg` mode, those up to and including the first inexact one otherwise |
| Evaluate.SampleLoopSaved | evaluate/evaluate_model.py:419-429 | a round is saved iff it is counted, in order |
| Evaluate.SampleLoopSeen | evaluate/evaluate_model.py:404-418 | the metric keys exist after a sample iff some round counted |
| Evaluate.SampleLoopLengths | evaluate/evaluate_model.py:391-394 | answer-part lengths are summed over every round, in both modes |
| Evaluate.SequentialAtMostAvgSample | evaluate/evaluate_model.py:404-418 | per sample, the sequential sums never exceed the `avg` sums |
| Evaluate.Aggregate | evaluate/evaluate_model.py:380-434 | each metric sum grows by at most one per sample |
| Evaluate.SequentialAtMostAvg | evaluate/evaluate_model.py:380-434 | over the dataset, the sequential sums never exceed the `avg` sums |
| Evaluate.KeptFamily | evaluate/evaluate_model.py:453 | a metric key is reported iff its part before `-` is a requested metric |
| Evaluate.Normalise | evaluate/evaluate_model.py:450-456 | normalisation fails exactly on a zero divisor: no rounds (`len(new_dataset)` divides the `avg_` values), or no samples while some accuracy key is reported; `Size` is the sample count |
| Evaluate.NormaliseKeys | evaluate/evaluate_model.py:450-454 | an accuracy key is reported iff some round counted and its family was requested |
| Evaluate.AccuracyValue | evaluate/evaluate_model.py:451 | each reported accuracy is its sum times 100 divided by the number of samples |
| Evaluate.NormaliseMeans | evaluate/evaluate_model.py:451 | the `avg_` values times the number of rounds give back the length sums |
| Evaluate.NormaliseValue | evaluate/evaluate_model.py:451 | a reported accuracy is its sum times 100 over the sample count |
| Evaluate.Percentages | evaluate/evaluate_model.py:450-454 | when every metric sum is at most the sample count, every reported accuracy lies in [0, 100] |
| Evaluate.NormaliseMonotone | evaluate/evaluate_model.py:450-454 | larger sums give larger reported accuracies, key by key |
| Evaluate.JsonlLinesAsWritten | evaluate/evaluate_model.py:241-246 | as written, every JSONL line carries the metrics of the last round scored (`test_result` of the enclosing function), not its own |
| Evaluate.JsonlLinesAsWrittenMislabels | evaluate/evaluate_model.py:241-246 | two saved rounds with different metrics: as written the first line reports the second round's metrics, while the corrected lines report each round's own |
| Evaluate.JsonlLines | evaluate/evaluate_model.py:441-443 | corrected `key_map`: line i carries record i's id and record i's own metrics, one line per record |
| Evaluate.Finish | evaluate/evaluate_model.py:380-456 | corrected (see Findings: each JSONL line carries its own record's metrics): after the aggregation loop, the report's `Size` is the sample count, every accuracy lies in [0, 100], and the JSONL lines are those of the saved records |
| Evaluate.MultiRound | evaluate/evaluate_model.py:308-456 | corrected (see Findings: each JSONL line carries its own record's metrics): a dataset gives no report iff it is empty; a report means some round exists and every round got a prompt, `Size` is the sample count, accuracies lie in [0, 100] and the lines match the saved records |
| Evaluate.MissingPromptFails | evaluate/evaluate_model.py:343-344 | when some round was skipped for lack of candidate tools, the prompt list is shorter than the rounds and the evaluation fails (`prompt_list[cur_idx+j]` runs past the end) |
| Evaluate.FinishSequentialAtMostAvg | evaluate/evaluate_model.py:404-456 | every accuracy the sequential mode reports is at most the one `avg` mode reports |
| Evaluate.SequentialReportsAtMostAvg | evaluate/evaluate_model.py:308-456 | on the same dataset and model, every sequential accuracy is at most the `avg` one |
| SingleRound.Init | evaluate/evaluate_model.py:109 | `data[:-1]`, which is empty for an empty sample |
| SingleRound.SamplePromptNeedsTools | evaluate/evaluate_model.py:109-122 | a sample gets a prompt iff a `candidate_tools` message precedes its last message (an empty tool list still counts, as `[{}]`) |
| SingleRound.SinglePromptsFail | evaluate/evaluate_model.py:105-133 | building the prompts fails iff building one sample's prompt fails |
| SingleRound.SinglePromptsAligned | evaluate/evaluate_model.py:105-133 | when every sample has a prompt, prompt i belongs to sample i |
| SingleRound.SinglePromptsShort | evaluate/evaluate_model.py:121-122 | a sample without tools makes the prompt list shorter than the dataset |
| SingleRound.SampleResult | evaluate/evaluate_model.py:166-172 | a tool-call sample is scored; any other sample reuses the previous round's answer and metrics, and before any score that raises `NameError` |
| SingleRound.SingleStep | evaluate/evaluate_model.py:174-188 | one pair appends exactly one saved record, with the sample's `data[0]` content as id and the current golden answer and metrics, and leaves the metric keys present |
| SingleRound.SingleLoop | evaluate/evaluate_model.py:157-188 | the `zip` loop saves one record per remaining pair (the shorter of dataset and prompt list), keeps the earlier records as a prefix, and the metric keys exist iff some pair was processed |
| SingleRound.SingleLoopBounded | evaluate/evaluate_model.py:174-179 | each pair adds at most one to each metric sum |
| SingleRound.NearestCall | evaluate/evaluate_model.py:166-172 | the nearest tool-call sample at or before i, if any |
| SingleRound.SingleLoopAt | evaluate/evaluate_model.py:157-188 | pair i is saved under sample i's id with the golden answer and metrics of the nearest tool-call sample at or before it (or the previous ones) |
| SingleRound.FirstStaleFails | evaluate/evaluate_model.py:166-172 | when the first sample is not a tool-call sample, `test_result` is unbound and the loop raises `NameError` |
| SingleRound.SingleDataset | evaluate/evaluate_model.py:101-216 | corrected (see Findings): a report needs a non-empty dataset whose prompts were built; it has `Size = len(dataset)`, one saved record per zipped pair, accuracies in [0, 100], one JSONL line per record carrying that record's own metrics, and carries the last record's metrics to the next dataset |
| SingleRound.SingleDatasetAsWritten | evaluate/evaluate_model.py:31-36 | as written (the lines are written at line 205), every JSONL line of a dataset carries the last saved record's metrics, so a line whose record scored differently is mislabelled |
| SingleRound.EmptyDatasetFails | evaluate/evaluate_model.py:209-216 | an empty dataset divides by zero |
| SingleRound.SingleDatasets | evaluate/evaluate_model.py:99-216 | one report per dataset, in order, each with its dataset's size; `test_result` carries over from one dataset to the next |
| SingleRound.SingleRoundEval | evaluate/evaluate_model.py:99-216 | single-round evaluation reports every dataset, in order, with its own size |
| Selection.LastEnd | run.py:145-151 | the backward scan finds the last round end before `n`, with none after it; it reports none only when no message is a round end, and raises only at a message it reaches |
| Selection.FirstEnd | run.py:152-155 | the forward scan finds the first round end from `i`, with none before it; it reports none only when no message is a round end, and raises only at a message it reaches |
| Selection.PrepareOne | run.py:144-160 | `single_last` and `single_first` keep a prefix ending at a round end, or nothing; `multiple*` and `all` keep the sample; any other mode keeps nothing |
| Selection.LastModeKeepsLastRound | run.py:145-151 | `single_last` keeps exactly the last round of the sample, and nothing for a sample without rounds |
| Selection.FirstModeKeepsFirstRound | run.py:152-155 | `single_first` keeps exactly the first round of the sample, and nothing for a sample without rounds |
| Selection.AnyCond | run.py:82-86 | an `or` scheme's tag test raises iff some `1`/`-1` condition's membership test raises |
| Selection.AllConds | run.py:95-99 | an `and` scheme's tag test raises iff some `1`/`-1` condition's membership test raises |
| Selection.AnyCondMeans | run.py:79-86 | an `or` scheme admits the sample iff some condition is met: a `1` tag present or a `-1` tag absent |
| Selection.AllCondsMeans | run.py:92-99 | an `and` scheme admits the sample iff every condition is respected: no `1` tag absent and no `-1` tag present |
| Selection.SchemePasses | run.py:78-99 | a sample missing from a scheme's map passes an `and` scheme and fails an `or` scheme |
| Selection.OuterOr | run.py:74-104 | in outer `or` mode the sample passes iff some scheme of a supported mode passes, unsupported schemes being ignored |
| Selection.OuterAnd | run.py:105-135 | in outer `and` mode the sample fails iff some scheme of a supported mode fails, unsupported schemes being ignored |
| Selection.TagFilter | run.py:35-36 | no tag settings keep every sample; a sample whose first message is not its id is dropped; an empty sample raises `IndexError`; an unsupported outer mode keeps the sample (also lines 70-73, 136-138) |
| Selection.NoSchemes | run.py:74-106 | without schemes, outer `or` drops every sample and outer `and` keeps every sample |
| Selection.FilterSamples | run.py:163-170 | reading keeps exactly the samples the filter accepts, and nothing else |
| Selection.CutSamples | run.py:189-195 | cutting applies the mode to every sample and keeps exactly the non-empty results |
| Selection.CutKeeps | run.py:192-195 | every sample whose cut is non-empty contributes that cut |
| Selection.PrepareDatasets | run.py:172-202 | no requested dataset raises `ValueError`; otherwise the result is the cut of the loaded datasets, all non-empty |
| Selection.CutAll | run.py:189-202 | cutting the datasets fails iff cutting one fails; every kept dataset is non-empty |
| Selection.CutAllFrom | run.py:189-202 | every kept dataset is the cut of a loaded dataset of the same name |
| Selection.CutAllKeeps | run.py:196-200 | a loaded dataset is kept iff its cut is non-empty |
| Selection.CutAllNonEmpty | run.py:196-200 | no kept dataset is empty |
| Selection.AllMetrics | run.py:212-214 | the averaged metrics are exactly the keys other than `Size` of some dataset's results |
| Selection.AverageResult | run.py:204-220 | averaging fails iff some dataset lacks a metric another has (`KeyError`) or there are metrics but no samples; each metric is the size-weighted mean, `Size` is the total, and the name holds the prefix before `_` of every dataset |
| Selection.WeightedSumBounds | run.py:215-217 | when every dataset's value lies in [lo, hi], the size-weighted sum lies between lo and hi times the total size |
| Selection.MeanWithin | run.py:215-218 | when every dataset's value lies in [lo, hi], so does the weighted mean |
| RawSamples.GetOr | tag/dataset_analyzer.py:321 | `d.get(k, default)`: the value under the key when present, the default otherwise |
| RawSamples.Msg | tag/dataset_analyzer.py:252 | a built message is a dict whose `role` and `content` read back as given |
| RawSamples.RoleValues | tag/dataset_analyzer.py:213-217 | the kept values are role-bearing dicts, no more than the fields, and every role-bearing value is kept |
| RawSamples.RoleValuesAppend | tag/dataset_analyzer.py:213-217 | the values kept from two runs of fields are those of the first run followed by those of the second, so field order is kept |
| RawSamples.RoleValuesSingle | tag/dataset_analyzer.py:213-217 | one field contributes its value iff the value bears a role |
| RawSamples.NormalizeSample | tag/dataset_analyzer.py:205-218 | a list is kept; a dict with `messages` gives that value; another dict gives a list of its role-bearing values; anything else gives `[]` |
| RawSamples.NormalizeStable | tag/dataset_analyzer.py:205-218 | without a `messages` key normalising gives a list, normalising twice changes nothing, and a dict yields only dicts |
| SampleChecks.FirstIdContent | tag/dataset_analyzer.py:224-228 | the content of the first `id` message, absent iff there is none |
| SampleChecks.DefaultId | tag/dataset_analyzer.py:235 | the fallback id is a string starting with `sample_` |
| SampleChecks.SampleId | tag/dataset_analyzer.py:220-235 | the id is always truthy: the declared id when it is truthy, `sample_{n}` otherwise (also when `id` is present but falsy, which hides `data_id`) |
| SampleChecks.FirstDate | tag/dataset_analyzer.py:250-255 | the first `current_date` message at or after `i`, absent iff none |
| SampleChecks.WithoutFirstDate | tag/dataset_analyzer.py:247-255 | the copy loses exactly one message when there is a `current_date` one, and none otherwise |
| SampleChecks.DateRemovedOnce | tag/dataset_analyzer.py:250-255 | only the first `current_date` message is removed: the count drops by one when there is any |
| SampleChecks.HeadIssuesMeans | tag/dataset_analyzer.py:257-276 | the head check reports nothing iff the sample has at least three messages with roles `id`, `candidate_tools`, `user` |
| SampleChecks.HeadIssuesShort | tag/dataset_analyzer.py:263-269 | a sample shorter than three reports the first missing role last, after wrong-role reports only |
| SampleChecks.IssuesAtMeans | tag/dataset_analyzer.py:279-313 | a position has no issue iff its role is valid and the three ordering rules hold against the previous role |
| SampleChecks.OrderIssuesEmpty | tag/dataset_analyzer.py:279-313 | the ordering check reports nothing iff no position from `i` on has an issue |
| SampleChecks.OrderIssuesMeans | tag/dataset_analyzer.py:279-313 | the ordering check reports nothing iff every position from `i` on is well placed |
| SampleChecks.UnknownRolesReported | tag/dataset_analyzer.py:283-288 | every position with a role outside the valid set is reported with its role |
| SampleChecks.RoleIssuesMeans | tag/dataset_analyzer.py:237-313 | a non-empty sample has no role issue iff, after dropping its first `current_date`, it starts `id`, `candidate_tools`, `user` and every position is well placed |
| SampleChecks.ShapeOf | tag/dataset_analyzer.py:360-402 | a call round adds at most one tool count; a non-empty list adds its length and its entries are checked |
| SampleChecks.CountCalls | tag/dataset_analyzer.py:353-355 | the number of tool-call rounds is at most the number of messages (also line 419) |
| SampleChecks.ToolsPerRound | tag/dataset_analyzer.py:360-402 | at most one tools-per-round entry per tool-call round (also lines 422-423) |
| SampleChecks.CollectUnknown | tag/dataset_analyzer.py:375-378 | collecting keeps the earlier names and appends only unknown names of the calls, each not equal to one already there |
| SampleChecks.CollectCovers | tag/dataset_analyzer.py:375-378 | every unknown name of the calls ends up in the collected list, or an equal one does |
| SampleChecks.UnknownTools | tag/dataset_analyzer.py:367-378 | without candidates nothing is reported; every reported name is an unknown name of some call, and no two are equal |
| SampleChecks.UnknownToolsMeans | tag/dataset_analyzer.py:367-378 | with candidates every unknown name is reported (or an equal one), and something is reported iff there are candidates and some call name is unknown (also lines 405-412) |
| SampleChecks.MissingResponses | tag/dataset_analyzer.py:436-443 | every reported position is a call that is not the last message |
| SampleChecks.MissingResponsesMeans | tag/dataset_analyzer.py:436-443 | nothing is reported iff every tool call before the last message is followed by a `tool_response` |
| SampleChecks.EmptyAtEnd | tag/dataset_analyzer.py:426-429 | a sample adds at most one empty call at the end |
| SampleChecks.EmptyBeforeEndZero | tag/dataset_analyzer.py:426-432 | no invalid empty call is counted iff no message before the last is an empty tool call |
| SampleChecks.Names | tag/dataset_analyzer.py:328 | one candidate name per tool: a dict's `name`, any other entry itself |
| SampleChecks.CandidatesOf | tag/dataset_analyzer.py:321-337 | the candidate count equals the number of names; a list content gives its names and length |
| SampleChecks.FindCandidates | tag/dataset_analyzer.py:315-343 | without a `candidate_tools` message there are no candidates |
| SampleChecks.HasDependency | tag/dataset_analyzer.py:446-456 | a sample has a dependency iff some tool call mentions both `<link>` and `</link>` |
| SampleChecks.FirstNonDict | tag/dataset_analyzer.py:514-524 | at most one non-dict response value is reported, the first one, and none iff every value is a dict |
| SampleChecks.ResponseIssuesAt | tag/dataset_analyzer.py:482-545 | a response adds at most two issues |
| SampleChecks.ResponseIssuesAtMeans | tag/dataset_analyzer.py:482-545 | a response has no issue iff it is a dict and, for a list (or parsed string) of calls, has one entry per call, and for a list every entry is a dict |
| SampleChecks.ResponseIssuesEmpty | tag/dataset_analyzer.py:477-545 | the response check reports nothing iff no position from `i` on has an issue |
| SampleChecks.ResponseIssuesMeans | tag/dataset_analyzer.py:477-545 | the response check reports nothing iff every message is well answered with respect to the one before it |
| DatasetStats.Merge | tag/dataset_analyzer.py:75-91 | merging adds the counters and concatenates the lists |
| DatasetStats.MergeMonoid | tag/dataset_analyzer.py:36-47 | the empty statistics are a unit of merging, and merging is associative (also lines 54-91) |
| DatasetStats.MergeConsistent | tag/dataset_analyzer.py:75-91 | merging keeps every per-sample counter within the sample count |
| DatasetStats.Labelled | tag/dataset_analyzer.py:265-313 | each issue is reported once, under the sample's id, in order |
| DatasetStats.FormatAndRoles | tag/dataset_analyzer.py:237-313 | an empty sample is a format error and nothing else; otherwise the role issues are reported under the sample's id |
| DatasetStats.CountUsers | tag/dataset_analyzer.py:157 | the user count is at most the number of messages |
| DatasetStats.InvalidEmpty | tag/dataset_analyzer.py:426-432 | corrected: a sample counts once, iff some empty tool call is not its last message |
| DatasetStats.SampleDelta | tag/dataset_analyzer.py:143-170 | corrected (see Findings: the empty-call finding counts a sample once, not once per empty call): one analysed sample adds one to the total, its round and user counts, its dependency, empty-call, role, response and unknown-tool findings, each counted at most once |
| DatasetStats.AnalyzeRecord | tag/dataset_analyzer.py:142-170 | a record raises iff its normalised sample is non-empty and not analysable; an empty one only adds to the total |
| DatasetStats.RecordErrFree | tag/dataset_analyzer.py:142-170 | whether a record raises does not depend on the statistics gathered before it |
| DatasetStats.RecordConsistent | tag/dataset_analyzer.py:142-170 | analysing a record keeps the statistics consistent |
| DatasetStats.AnalyzeRecordsTotal | tag/dataset_analyzer.py:142-170 | each record the loop gets through adds one to the total |
| DatasetStats.AnalyzeRecordsConsistent | tag/dataset_analyzer.py:142-170 | the loop keeps the statistics consistent |
| DatasetStats.AnalyzeRecordsErr | tag/dataset_analyzer.py:142-170 | the loop raises iff some record raises on its own |
| DatasetStats.AnalyzeFile | tag/dataset_analyzer.py:131-179 | a file whose records all pass counts them all; one raising record loses the whole file, which reports empty statistics |
| DatasetStats.AnalyzeFiles | tag/dataset_analyzer.py:34-52 | the overall statistics are consistent |
| DatasetStats.AnalyzeFilesTotal | tag/dataset_analyzer.py:41-47 | the overall sample count is the sum of the files' counts (also line 77) |
| DatasetStats.CalculateAverages | tag/dataset_analyzer.py:93-129 | an empty list averages to 0, and no samples give percentages of 0 |
| DatasetStats.MeanWithin | tag/dataset_analyzer.py:96-117 | the mean of a non-empty list lies between its bounds |
| DatasetStats.PercentagesWithin | tag/dataset_analyzer.py:119-129 | with the corrected counts, every percentage lies in [0, 100] |
| DatasetStats.InvalidEmptyAsWrittenExceeds | tag/dataset_analyzer.py:426-432 | as written, one sample with two empty calls before its end counts 2 and reports 200 percent; the corrected count reports 100 (also line 123) |
| DatasetStats.TwoEmptyCalls | tag/dataset_analyzer.py:426-432 | the witness sample, whatever its question, has two empty tool calls before its last message |
| FakeResponse.FakeFields | datasets/source/fake_response.py:127-147 | the fake data exists iff every schema detail is a dict (`details.get` raises otherwise) |
| FakeResponse.FakeData | datasets/source/fake_response.py:127-147 | `generate_fake_data` succeeds iff the schema is a dict of dicts |
| FakeResponse.FakeFieldsMeans | datasets/source/fake_response.py:128-145 | every schema key gets the fake value of its type, later keys overwrite, other keys keep their earlier value |
| FakeResponse.FakeDataMeans | datasets/source/fake_response.py:127-147 | the fake data has exactly the schema's keys, each with the fake value of its declared type, without duplicates |
| FakeResponse.FakeValueShapes | datasets/source/fake_response.py:132-145 | `object` gives `{key: "value"}`, `array` gives `["<key>_value"]`, every other type (or none) gives `"<key>_value"` |
| FakeResponse.FirstNamed | datasets/source/fake_response.py:113-118 | the first dict candidate whose name equals the call's under Python `==` (so `1` matches `True`), with none before it; absent iff no candidate matches |
| FakeResponse.MatchToolMeans | datasets/source/fake_response.py:113-118 | a dict call is answered by the first candidate with its name, under the key `json.dumps` writes for that name; no match gives nothing, and a malformed schema or a list or dict name (unhashable) raises |
| FakeResponse.MatchToolNonDict | datasets/source/fake_response.py:113-114 | a candidate that is not a dict, reached before any match, raises at `tool.get` |
| FakeResponse.NameKeyExamples | datasets/source/fake_response.py:113-117 | names need not be strings: two missing names match under the key `null`, a call named `True` matches a candidate named `1` under the key `1`, and a list name raises |
| FakeResponse.ResponsesMeans | datasets/source/fake_response.py:104-118 | without a raise, each key of the response dict holds the fake data for the last call whose first matching candidate has that key, and keys no call reaches keep their earlier value |
| FakeResponse.ResponsesKeys | datasets/source/fake_response.py:104-118 | without a raise, the response dict has a key exactly for the keys of the calls' matching candidates (unknown tools are left out, repeated calls share one key) |
| FakeResponse.ResponsesDistinct | datasets/source/fake_response.py:104-118 | repeated calls of one tool share a key: the response dict never holds a key twice |
| FakeResponse.ResponsesStops | datasets/source/fake_response.py:111-121 | a call whose matching raises ends the `try`: later calls add nothing and the responses built so far are kept |
| FakeResponse.LastRequest | datasets/source/fake_response.py:112-117 | the last call whose response key is the given one: it has that key and no later call does; absent iff no call has it |
| FakeResponse.LastResolvedSpec | datasets/source/fake_response.py:74-89 | the last resolution is what some `candidate_tools` message resolves to with no later message resolving, and it is absent iff no message resolves |
| FakeResponse.CandidatesAppend | datasets/source/fake_response.py:74-89 | the candidate scan over two parts is the scan of the second started from the first's result |
| FakeResponse.CandidatesFromLast | datasets/source/fake_response.py:74-89 | the candidate list is that of the last resolving `candidate_tools` message, or the initial one |
| FakeResponse.SpreadLength | datasets/source/fake_response.py:99-124 | spreading adds exactly the inserted messages to the length |
| FakeResponse.SpreadAt | datasets/source/fake_response.py:99-124 | each original message lands at its offset, followed by exactly its own inserted messages |
| FakeResponse.ResponseMsg | datasets/source/fake_response.py:123 | the inserted message is a `tool_response` dict, not a tool call |
| FakeResponse.FillLength | datasets/source/fake_response.py:95-124 | filling adds exactly one message per tool call not followed by a `tool_response` |
| FakeResponse.InsertedAt | datasets/source/fake_response.py:95-124 | after position `i + j` exactly one message is inserted when it is an unanswered call, and none otherwise |
| FakeResponse.InsertedShape | datasets/source/fake_response.py:95-124 | exactly one message is inserted after each unanswered call, nothing elsewhere, and it is a `tool_response` |
| FakeResponse.FillLayout | datasets/source/fake_response.py:70-125 | `fill_sample` is the sample with one `tool_response` spread after each unanswered call |
| FakeResponse.FillPlaces | datasets/source/fake_response.py:99-124 | position by position, each original message keeps its order and an unanswered call is immediately followed by the inserted response |
| FakeResponse.FillAnswersAll | datasets/source/fake_response.py:95-124 | after filling, every tool call that is not last is followed by a `tool_response` |
| FakeResponse.FillKeepsAnswered | datasets/source/fake_response.py:95-124 | a sample whose calls are all answered comes back unchanged |
| FakeResponse.FillKeepsCandidates | datasets/source/fake_response.py:74-89 | the inserted responses do not change the candidate tools (also line 123) |
| FakeResponse.FillIdempotent | datasets/source/fake_response.py:70-125 | filling twice is filling once |
| FakeResponse.FillSample | datasets/source/fake_response.py:70-125 | filling keeps every message a dict; its layout is stated by `FillLayout` |
| FakeResponse.FillIsSpread | datasets/source/fake_response.py:99-124 | the insertion loop is the sample spread with the per-message inserted responses |
| FakeResponse.AnswerInserted | datasets/source/fake_response.py:95-124 | an unanswered call is answered by the response inserted right after it |
| FakeResponse.AnsweredCons | datasets/source/fake_response.py:95-97 | a call followed by a `tool_response` before an answered rest leaves everything answered |
| FakeResponse.CandidatesSingle | datasets/source/fake_response.py:74-89 | one message sets the candidates iff its content resolves to a list, and otherwise leaves them |
| Button.Flatten | datasets/source/button.py:56-68 | every flattened leaf holds a scalar, and a scalar flattens to itself under the prefix |
| Button.FlattenValues | datasets/source/button.py:56-68 | the leaf values, in order, do not depend on the path prefix |
| Button.FlattenBelow | datasets/source/button.py:56-68 | every leaf path is the prefix or lies below it after a dot |
| Button.TopCallBelow | datasets/source/button.py:74 | the first two dot components of a leaf path below `name.index` are that call id |
| Button.ReplaceParam | datasets/source/button.py:71-76 | a value is linked iff some leaf equals it, and then to the FIRST equal leaf, with that leaf's two-component call id; otherwise it is unchanged |
| Button.Rewrite | datasets/source/button.py:86-95 | rewriting keeps the parameter's dict/list shape and replaces each scalar by its link |
| Button.DepsOfLeaves | datasets/source/button.py:86-97 | the dependencies collected from a parameter are those of its flattened scalar values |
| Button.ProcessCalls | datasets/source/button.py:79-98 | each call keeps its name and shape, and its `depend_on` gains exactly the call ids its scalars link to |
| Button.DepsAreResultIds | datasets/source/button.py:74 | every added dependency is the id of a recorded result (also lines 79-83) |
| Button.CallTexts | datasets/source/button.py:46 | each found call text sits between `<call>` and `</call>` and holds no `</call>` (non-greedy match) |
| Button.CallTextsNone | datasets/source/button.py:46 | without `<call>` there are no call texts |
| Button.FinalText | datasets/source/button.py:47 | the result is the text of the leftmost `<final>`…`</final>` match, so it holds no `</final>`; there is none iff no `<final>` is followed by a `</final>` |
| Button.ParseAll | datasets/source/button.py:53 | the calls parse iff every call text parses, and each parses to its own value |
| Button.SplitAssistant | datasets/source/button.py:45-53 | every call was parsed from a tagged call text, the answer is a stripped tagged final text, and the thought is no longer than the content |
| Button.SplitAssistantParts | datasets/source/button.py:45-53 | the calls are all the parsed `<call>` texts in order and parsing fails iff one is not JSON; the answer is the stripped leftmost final text; the thought is the content with the calls and the final block removed, stripped |
| Button.PlainContent | datasets/source/button.py:45-53 | content without tags splits into its stripped self, no calls and no answer |
| Button.Property | datasets/source/button.py:25-29 | a property keeps exactly `description`, `type` and `default` |
| Button.Properties | datasets/source/button.py:24-29 | the properties convert iff every parameter value is a dict, else an attribute error |
| Button.PropertiesMeans | datasets/source/button.py:24-29 | each parameter name maps to its converted property |
| Button.ResponseOf | datasets/source/button.py:30-40 | a non-empty `responses` dict is kept, anything else becomes the default non-empty response |
| Button.ExtractTool | datasets/source/button.py:13-41 | a tool converts iff it is a dict with `name`, `description` and dict `parameters`; the result carries its name, description, `required` (default empty) and response |
| Button.ExtractedProperties | datasets/source/button.py:17-29 | the converted tool's properties are exactly the converted parameters |
| Button.ExtractTools | datasets/source/button.py:11-42 | the tool list converts iff it is a list of convertible tools, element by element |
| Button.ExtractAllSpec | datasets/source/button.py:13-41 | conversion succeeds iff every tool converts, element by element, and otherwise fails with the error of the first tool that does not convert |
| Button.CallOf | datasets/source/button.py:135-141 | a single call converts iff it is a dict with a hashable `name` and `arguments`, to a call with no dependencies |
| Button.SinglesOf | datasets/source/button.py:133 | a dict is one call, a list is its elements |
| Button.CallsOfSingles | datasets/source/button.py:134-143 | the calls convert iff each does, in order |
| Button.CollectCalls | datasets/source/button.py:131-143 | one call per dict and per list element, none with dependencies |
| Button.Wrap | datasets/source/button.py:161-163 | a dict result is kept, anything else is wrapped as `{"response": x}` |
| Button.ReplyLoopSpec | datasets/source/button.py:157-166 | the loop completes iff every remaining entry is well formed; it keeps both maps consistent, every response a dict, removes no key, and on completion records an id for each entry |
| Button.ReplyLoopOk | datasets/source/button.py:157-160 | the loop raises iff some remaining entry is not a dict with a hashable name |
| Button.ReplyLoopRecorded | datasets/source/button.py:164-165 | `rsp_map` and `call_results` receive the same value under each new id, so they stay consistent |
| Button.ReplyLoopIds | datasets/source/button.py:158-165 | on completion every entry's id `name.k` is a key of `rsp_map` |
| Button.AssignKeeps | datasets/source/button.py:164 | `d[k] = v` removes no key and adds `k` |
| Button.ToolReply | datasets/source/button.py:150-170 | the reply is recorded iff the content parses to a list of well-formed entries; both maps stay consistent |
| Button.ReplyIds | datasets/source/button.py:157-167 | a well-formed reply records every entry's id, with the same data in the response map and the results |
| Button.CallTurn | datasets/source/button.py:128-172 | a turn with calls emits the thought, one `tool_call` with the linked calls and the answer; the pointer moves past one tool message when there is one |
| Button.AssistantTurn | datasets/source/button.py:126-173 | an assistant turn has string content, emits at most one `tool_call` and moves the pointer by at most one |
| Button.ToolMsgs | datasets/source/button.py:116 | every selected message is a dict with role `tool`, and there are no more of them than messages |
| Button.Header | datasets/source/button.py:102-111 | the output starts with the sample id and the candidate tools extracted from the first message |
| Button.MsgListToNewFormat | datasets/source/button.py:101-176 | a converted sample starts with its id and candidate tools |
| Button.MsgListToNewFormatAsWritten | datasets/source/button.py:101-176 | the conversion as written (the `continue` at line 170) also starts with id and candidate tools |
| Button.WalkCalls | datasets/source/button.py:121-176 | the corrected loop emits at most one `tool_call` per assistant message |
| Button.ConvertedCalls | datasets/source/button.py:101-176 | a converted sample has no more `tool_call` messages than assistant messages |
| Button.ExampleSplit | datasets/source/button.py:45-53 | a lone call tag splits into an empty thought and one call |
| Button.AsWrittenTwice | datasets/source/button.py:150-170 | when the tool reply fails to parse, the as-written loop re-runs the same assistant message |
| Button.WalkOnce | datasets/source/button.py:121-176 | the corrected loop handles that assistant message once |
| Button.ContinueRepeatsCall | datasets/source/button.py:168-170 | on a two-message sample with an unparsable reply, the as-written conversion emits the same `tool_call` twice |
| Button.AdvanceConvertsOnce | datasets/source/button.py:168-173 | the corrected conversion emits it once |
| Button.ExampleWalkAsWritten | datasets/source/button.py:121-176 | on that sample the as-written loop emits two `tool_call` messages |
| Button.ExampleWalk | datasets/source/button.py:121-176 | the corrected loop emits one |
| Training.PassedMessages | train/prepare_datasets.py:14-16 | only messages of the four trained roles are kept, each taken from the sample |
| Training.PassedAppend | train/prepare_datasets.py:14-16 | the role filter distributes over concatenation, so it keeps the sample order |
| Training.PassedKept | train/prepare_datasets.py:14-16 | every message of a trained role is kept |
| Training.CandidateTools | train/prepare_datasets.py:13 | the candidate tools are the content of the last `candidate_tools` message, or empty without one (also lines 17-18) |
| Training.PassAt | train/prepare_datasets.py:35-48 | a pass that continues moves the search position strictly forward, within the text |
| Training.Iteration | train/prepare_datasets.py:28-48 | each loop iteration either stops or advances the search position |
| Training.SegmentsJoin | train/prepare_datasets.py:24-48 | the segments from a position concatenate back to the rest of the text |
| Training.SegmentationRoundTrip | train/prepare_datasets.py:24-48 | joining all segments gives back the formatted prompt |
| Training.PromptTargetFramed | train/prepare_datasets.py:38 | a target segment follows the generation prompt and ends with the assistant end marker (also lines 45-46) |
| Training.SegmentsFramed | train/prepare_datasets.py:24-48 | every target segment is preceded by the generation prompt and ends with the assistant end marker |
| Training.UnclosedPromptEnds | train/prepare_datasets.py:40-43 | an unclosed generation prompt ends the segments with the prompt and the untrained rest, and no segment is a target |
| Training.Repeat | train/prepare_datasets.py:65 | `[-100] * n` has length n and holds only -100 |
| Training.Encode | train/prepare_datasets.py:50-71 | the labels are as long as the input ids |
| Training.TargetMask | train/prepare_datasets.py:54-65 | the target mask has one entry per input id |
| Training.LabelsFollowMask | train/prepare_datasets.py:54-65 | each label is its input id in a target segment and -100 elsewhere |
| Training.PrepareOne | train/prepare_datasets.py:11-71 | a prepared example has one label per input id |
| Training.PrepareOneMeans | train/prepare_datasets.py:11-71 | the segments rebuild the prompt, targets are framed, and each label is its token inside a target and -100 outside |
| Training.Trunc | train/prepare_datasets.py:108 | `int()` truncates toward zero (also line 135) |
| Training.SliceEnd | train/prepare_datasets.py:109-110 | a Python slice end: clamped to the length, counted from the end when negative (also lines 136-137) |
| Training.ScaledWithin | train/prepare_datasets.py:108 | a ratio in [0, 1] gives a split index within the dataset, a larger one an index past its end (also line 135) |
| Training.SplitDataset | train/prepare_datasets.py:104-119 | a ratio of exactly 1 saves the whole dataset; any other ratio splits it into a training prefix of `int(n * ratio)` items (clamped) and the rest as validation (also lines 131-147) |
| Training.SplitSize | train/prepare_datasets.py:107-110 | for a ratio in [0, 1) the training part has `floor(n * ratio)` items |
| Bfcl.GetItem | datasets/source/bfcl.py:19-23 | subscripting a dict gives the key's value or a key error; anything else is a type error |
| Bfcl.At | datasets/source/bfcl.py:37-44 | indexing a list gives its element, a string gives a one-character string, anything else out of range fails |
| Bfcl.ToolCall | datasets/source/bfcl.py:30-34 | a ground-truth call has exactly the keys `name`, `parameters`, `depend_on` |
| Bfcl.ShapeCall | datasets/source/bfcl.py:29-35 | a call converts iff it is a non-empty dict, and then its first entry gives the name and the parameters |
| Bfcl.ShapeCalls | datasets/source/bfcl.py:29-35 | the ground truth converts iff every call does, element by element, and otherwise fails with a failing call's error |
| Bfcl.Rename | datasets/source/bfcl.py:48-50 | the repair keeps the shape of the answer: strings stay strings, lists and dicts keep their length, and numbers, booleans and `null` are untouched |
| Bfcl.RenameClean | datasets/source/bfcl.py:48-50 | the `simple_363` repair leaves data without `find_closest` unchanged |
| Bfcl.CheckedId | datasets/source/bfcl.py:23-28 | the id check passes iff the ids are equal or form the one repaired pair, and then yields the answer's id for that pair and the question's otherwise |
| Bfcl.Unwrapped | datasets/source/bfcl.py:36-38 | the question must hold exactly one entry, and a nested list is unwrapped |
| Bfcl.RecordOf | datasets/source/bfcl.py:52-66 | a record is four messages: id, candidate tools, user query, ground truth |
| Bfcl.ShapeRecord | datasets/source/bfcl.py:16-66 | a record is produced only from well-keyed question and answer with matching ids, and holds the question's tools and one call per ground-truth entry |
| Bfcl.Finish | datasets/source/bfcl.py:36-66 | a sample is skipped iff its system prompt is non-empty; otherwise it records the user query, with the calls repaired for `simple_363` |
| Bfcl.FinishUserOnly | datasets/source/bfcl.py:36-44 | a single user message, nested or not, becomes the record with that query (also lines 52-66) |
| Bfcl.FinishSystemSkipped | datasets/source/bfcl.py:39-47 | a non-empty system prompt skips the sample |
| Bfcl.FinishSimple363Clean | datasets/source/bfcl.py:48-50 | for `simple_363` without `find_closest` the calls are kept as they are |
| Tagger.FloorDiv | tag/normal_tagger.py:160 | Python's `//`: the quotient rounds toward minus infinity (also lines 166-167) |
| Tagger.WorkRange | tag/normal_tagger.py:162-167 | the range fails iff `num` is 0; explicit `from_idx`/`to_idx` are used when both are given, otherwise share `id` of `len // num` items |
| Tagger.ShareBounds | tag/normal_tagger.py:162-167 | each worker's share `[id·q, (id+1)·q)` with `q = n // num` lies within `[0, n - n % num]`, and the last one ends there |
| Tagger.DefaultRanges | tag/normal_tagger.py:162-167 | the default ranges lie within the data and each ends where the next worker's starts; the last ends at `n - n % num` |
| Tagger.UnassignedTail | tag/normal_tagger.py:166-167 | the last `n % num` items fall in no worker's default range |
| Tagger.Stem | tag/normal_tagger.py:168 | a trailing `.json` is removed, and nothing else |
| Tagger.OutputName | tag/normal_tagger.py:168-169 | the output name ends in `.json` and carries the worker id iff there is more than one worker |
| Tagger.OutputNameSingle | tag/normal_tagger.py:168-169 | with one worker the name is stable: a `.json` name is kept and renaming twice changes nothing |
| Tagger.OutputNamesDiffer | tag/normal_tagger.py:169 | two workers of one distribution write different files |
| Tagger.NatToStringInjective | tag/normal_tagger.py:169 | distinct ids print differently |
| Tagger.SavingOf | tag/normal_tagger.py:174-180 | `save_step` -1 means one batch of the whole range and no progress file; otherwise the given step and a `.tmp.jsonl` file |
| Tagger.IntMin | tag/normal_tagger.py:75 | the minimum of two bounds (also line 118) |
| Tagger.Batches | tag/normal_tagger.py:74-75 | `range` fails iff the step is 0, and an empty ascending range gives no batches (also lines 117-118) |
| Tagger.AscendingShape | tag/normal_tagger.py:74-75 | the batches start at `from_idx`, end at `to_idx`, are non-empty, at most one step long and adjacent (also lines 117-118) |
| Tagger.PySlice | tag/normal_tagger.py:78 | a Python slice within bounds is the plain subsequence (also line 121) |
| Tagger.SliceSplit | tag/normal_tagger.py:78 | adjacent slices concatenate to the slice spanning both (also line 121) |
| Tagger.Map | tag/normal_tagger.py:78-83 | labelling keeps one result per item (also lines 123-134) |
| Tagger.MapAt | tag/normal_tagger.py:78-83 | each result is the labeller applied to its own item (also lines 123-134) |
| Tagger.MapAppend | tag/normal_tagger.py:87 | labelling batch by batch and extending gives the labelling of the whole (also line 140) |
| Tagger.AscendingCovers | tag/normal_tagger.py:74-89 | the batched loop labels exactly the items of `data[from_idx:to_idx]`, in order (also lines 117-142) |
| Tagger.AsKey | tag/normal_tagger.py:215-216 | an id can be a dict key iff it is not a list or dict |
| Tagger.Record | tag/normal_tagger.py:214-218 | recording a result needs its `id` and `tag`, and then the id is listed |
| Tagger.DedupFirstWins | tag/normal_tagger.py:213-218 | the tag of each id is that of its FIRST result; later duplicates are ignored, and deduplication fails iff some result lacks a usable id or tag |
| Tagger.Run | tag/normal_tagger.py:144-218 | the tagger as written produces results only with a valid distribution |
| Tagger.EmptyRangeFails | tag/normal_tagger.py:74 | worker 0 of 2 on one item has an empty range, so the step is 0 and `range` raises a value error (also lines 117, 174-175) |
| Tagger.CorrectedStep | tag/normal_tagger.py:174-178 | with `save_step` -1 the step is the range length, and positive even for an empty range |
| Tagger.CorrectedRun | tag/normal_tagger.py:144-218 | with the corrected step an empty range tags nothing instead of failing |
| Tagger.CorrectedRunTagsRange | tag/normal_tagger.py:144-218 | the corrected tagger is the first-wins deduplication of the labelled `data[from_idx:to_idx]` |
| Tagger.CorrectedAgrees | tag/normal_tagger.py:174-175 | on a non-empty range the correction changes nothing |
| Tagger.EmptyRangeCorrected | tag/normal_tagger.py:174-175 | the corrected tagger returns an empty result for that empty range |

`FakeResponse` has its own copy of `normalize_sample_format`
(datasets/source/fake_response.py:39-52). It is the same as the analyzer's and is
modelled once, as `RawSamples.NormalizeSample`.

## Left out

- File and console I/O is not modelled. This covers reading JSON and JSONL datasets,
  writing reports, temp files and jsonl lines, timestamps in output paths, and progress
  prints. Loaded data are parameters, and an unreadable file is not modelled.
- Model inference is a function parameter: `Evaluate.Model`, the taggers' `Labeller`, and
  `Training.Tokenizer` and `Training.Formatter`. The `vllm` and API requester set-up, the
  sampling parameters and the multiprocessing pool of the online tagger are left out.
  Which requester handles a request (`idx % len(requester_list)`) does not affect the
  result and is not modelled.
- `json.loads` of strings is a parser parameter (`RawSamples.Parser`) that returns
  `None` on malformed text. `json.dumps` equality is ordered structural equality on
  `Json`, not a comparison of printed text.
- scipy's `linear_sum_assignment` and the numpy padding are left out. The pairing is
  specified as a maximum-weight pairing. Among tied pairings the model takes the first
  one found, so when `p < g` and costs tie, which golden calls are paired may differ
  from scipy's. For the same reason only ToolAccuracy is proved independent of the
  order of the predicted calls in general; for the other metrics only the permuted golden list is covered (AllTools = 1).
- Floating-point rounding is not modelled: every ratio, mean and percentage is an exact
  `real`.
- The global `tools_set` that `datasets/source/bfcl.py` fills is not modelled. It feeds
  no record.
- Bfcl.Rename: the `simple_363` repair runs a text replacement over `json.dumps`. The
  model applies it to every key and every string. It does not model `json.loads`
  merging two keys that the replacement makes equal. It also does not model an
  occurrence that begins inside an escape: a form feed before `ind_closest` is written
  `\find_closest`, and the replacement turns it into a carriage return; a `\u` escape
  ending in `f` becomes invalid JSON.
- JsonValues.Show: floats print in positional notation with at most 17 fraction digits.
  Python's `repr` picks the shortest form that reads back to the same float and uses
  exponent notation from 1e16 up and below 1e-4. Strings inside lists and dicts are
  always single-quoted and not escaped. JsonValues.KeyText writes float keys the same
  way.
- FakeResponse.ResponsesMeans: the response dict is keyed by the text `json.dumps`
  writes for each name. Python keys it by the name itself, so `5` and `"5"` are two
  keys there, both written as `"5"`. `1`, `1.0` and `True` are one key there, written
  with the first name's text. The model keeps one key per text.
- FakeResponse.ResponsesKeys and FakeResponse.ResponsesMeans describe the response dict
  when every candidate is a dict with a usable `response` schema and a name that can key
  a dict. With other candidates the loop may raise; `FakeResponse.ResponsesStops` then
  says what is kept, but the keys are not characterised further.
- Training.SplitDataset: the shuffle before the train/validation split and `torch.save`
  are left out. The split is taken on the order given.
- Training.PassAt: the segmentation loop requires non-empty generation-prompt or
  assistant-end markers. With both empty the Python loop does not terminate.
- Tagger.WorkRange: `distribution["id"]` and `distribution["num"]` are assumed present.
  A missing key (`KeyError`) is not modelled.
- Tagger.AscendingCovers: batch coverage is proved for ranges whose bounds are not
  negative.
- The `debug` flag of `run.py` and the config plumbing (`evaluate_with_config`,
  `tag_with_config`, `train_with_config`, `main`) are not modelled. They only choose
  parameters and files.
- Comparators.SortedEq: a list holding two elements Python cannot order (a number and a
  string, say) is modelled as a `TypeError` whatever the order of the list. Python raises
  only if its sort happens to compare such a pair.
- The dict-vs-dict branch of `compare_params_bfcl` calls an undefined name. It is
  modelled as a `NameError` failure (`Comparators.BfclAccepts`), not as any comparison.

## Findings

| source | as written | input that shows it | evidently intended | confidence | as-written member | corrected member |
|---|---|---|---|---|---|---|
| evaluate/evaluate_model.py:241-256, 443 | `key_map` puts the enclosing loop's `test_result` into every jsonl line, so every line carries the metrics of the last round scored | two saved rounds whose metrics differ: the first line shows the second round's metrics | each line carries its own record's `metrics` (`save["metrics"]`) | medium, not executed | Evaluate.JsonlLinesAsWritten, Evaluate.JsonlLinesAsWrittenMislabels | Evaluate.JsonlLines, Evaluate.Finish |
| tag/dataset_analyzer.py:426-432, 123 | `invalid_empty_tool_call` grows once per empty call, but its percentage divides by the number of samples | one sample with two empty tool calls before its last message reports 200% | count each sample at most once, as the other per-sample percentages do | medium, not executed | DatasetStats.InvalidEmptyAsWritten, DatasetStats.InvalidEmptyAsWrittenExceeds | DatasetStats.InvalidEmpty |
| datasets/source/button.py:168-170 | when a tool reply fails to parse, `continue` skips `msg_idx += 1`, so the same assistant message is converted again | a system message, an assistant message with one call, and a tool message that does not parse: the `tool_call` is emitted twice | advance past the assistant message after a failed reply | high, not executed | Button.MsgListToNewFormatAsWritten, Button.ContinueRepeatsCall | Button.MsgListToNewFormat, Button.AdvanceConvertsOnce, Button.ConvertedCalls |
| tag/normal_tagger.py:174-175, 74, 117 | with `save_step == -1` the step is `to_idx - from_idx`, which is 0 for an empty range, and `range(from, to, 0)` raises `ValueError` | one record split between two instances with `save_step == -1`: instance 0 gets the range `[0, 0)` | an empty range tags nothing | medium, not executed | Tagger.Run, Tagger.EmptyRangeFails | Tagger.CorrectedRun, Tagger.EmptyRangeCorrected, Tagger.CorrectedRunTagsRange |
| evaluate/evaluate_model.py:31-36, 205 | in the single-round evaluation `key_map` also reads the enclosing `test_result`, which after a dataset's loop is the last sample's result, so every jsonl line carries the last sample's metrics | a dataset of two tool-call samples that score differently: the first line shows the second sample's metrics | each line carries its own record's `metrics` | medium, not executed | SingleRound.SingleDatasetAsWritten, SingleRound.SingleLinesAsWritten | SingleRound.SingleDataset |
