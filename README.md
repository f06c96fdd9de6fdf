# langfuzz red-teaming session, modelled in Dafny

This project models the session bookkeeping of `run_redteam` in langfuzz's
red-teaming tool. A run:

- loads an optional persistence record;
- resolves its parameters through `arg or config.get(...)` fallback chains;
- creates a regression dataset when no id resolved;
- builds the generation prompt from the questions already seen;
- fans the generated pairs out to the judge subgraph.

Then a producer routes each judged answer. An answer at or below
`max_similarity` goes into a priority queue keyed by its similarity.
Otherwise, when a persistence path is set, both its questions are recorded
as seen and written to the file; with no path such an answer is dropped. The
operator drains the queue: when a path is set, each popped pair is recorded
and written before it is shown, and a keystroke decides which questions
become dataset examples.

Modules, one per file:

- `Values` (values.dfy): Python `None`/`str`/`int` values (JSON floats,
  booleans, lists and objects are not modelled), their truthiness,
  left-grouped `or` chains, and `str()` of an int with a parsing round trip.
- `Results` (results.dfy): the `Result` dataclass, whose order looks at `prio`
  alone. The `queue.PriorityQueue` is modelled by its contents; a `get()` takes
  out a least element, found by a scan. The lemmas cover what successive pops
  may return.
- `Generation` (generation.dfy): the generation prompt (template, `str(n)`,
  the seen-question suffix) and the fan-out of pairs to `Send` units.
- `Setup` (setup.dfy): the persistence record, parameter resolution, the
  seen questions loaded at start, and lazy dataset creation.
- `Curation` (curation.dfy): the keystroke table and the curation loop's
  branch, both as written and as intended.
- `Redteam` (session.dfy): the session as a class. It holds the seen
  questions, the in-memory record, the ghost file content, the queue and a
  `Client` that logs `create_examples` calls. Its methods are the producer's
  routing of answers and the curation loop.

The producer thread and the curation loop run concurrently in the source.
Here they are a sequential interleaving of the class's methods: any number of
`Dispatch`/`CollectAnswers` and `Step` calls, and then `Curate`, which runs the
loop to its end once the producer has finished.

## Model

| member | source | states |
|---|---|---|
| Values.FirstTruthyIndex | src/langfuzz/redteam.py:204-208 | the chosen operand is the first truthy one, every earlier operand is falsy, and the last operand is chosen when none is truthy |
| Values.OrChainIsFirstTruthy | src/langfuzz/redteam.py:204-208 | a left-grouped `a or b or c` evaluates to its first truthy operand, or to its last operand when all are falsy |
| Values.IntToDecimalRoundTrip | src/langfuzz/redteam.py:94 | the decimal text `str()` produces for any int, negative ones included, parses back to the same int |
| Values.Show | src/langfuzz/redteam.py:94 | `str(n)` as inserted by `format` for `{n}`; for an int, the text denotes exactly that int |
| Results.OrderIgnoresAnswer | src/langfuzz/redteam.py:23-26 | `<` is a strict weak order whose ties are exactly the results that compare equal; neither `<` nor `==` depends on the answers |
| Results.Lt | src/langfuzz/redteam.py:23-26 | the dataclass's `<`: true only when the first priority is strictly smaller, and then the two results differ; false means the first priority is at least the second |
| Results.Same | src/langfuzz/redteam.py:23-26 | the dataclass's `==`: identical results compare equal, and two results compare equal exactly when their priorities agree, whatever their answers |
| Results.MinIndex | src/langfuzz/redteam.py:260 | `get()` on a non-empty queue: the position found holds an element that no element of the queue is less than |
| Results.RemoveAt | src/langfuzz/redteam.py:260 | the queue after a `get()` holds exactly the old contents less one copy of the taken result |
| Results.MinIndexIsMin | src/langfuzz/redteam.py:260 | the element at that position is a least element of the queue's contents |
| Results.PopOrderSorted | src/langfuzz/redteam.py:260 | results popped in succession come out in non-decreasing priority, and each was in the queue |
| Results.PopOrderExtend | src/langfuzz/redteam.py:260 | popping one more least element of what is left extends a legal pop sequence |
| Results.PopOrderExtendCons | src/langfuzz/redteam.py:260 | the same for a non-empty pop sequence |
| Results.PopOrderCons | src/langfuzz/redteam.py:260 | a least element followed by a legal pop sequence of the rest is a legal pop sequence |
| Results.MinusCons | src/langfuzz/redteam.py:260 | taking out the first pop and then the remaining pops takes out exactly all the pops |
| Results.TiesUnordered | src/langfuzz/redteam.py:23-26 | two results of equal priority may be popped in either order, whatever answers they carry |
| Generation.FormatTemplate | src/langfuzz/redteam.py:94 | the formatted template starts with the fixed head, holds the description right after it and `str(n)` right after the middle text, and has exactly the length of its pieces |
| Generation.Join | src/langfuzz/redteam.py:96 | `sep.join(xs)` is empty for no items; otherwise it starts with the first item and its length is the items' lengths plus one separator between each two |
| Generation.WithSeen | src/langfuzz/redteam.py:95-96 | any prompt text is kept as a prefix and left unchanged exactly when no question has been seen; otherwise the fixed header follows it, and after the header comes exactly the seen questions joined by newlines |
| Generation.GenerationPrompt | src/langfuzz/redteam.py:94-96 | the prompt starts with the formatted template and equals it exactly when no question has been seen; otherwise the fixed "already been generated" header follows the template, and after it comes exactly the seen questions joined by newlines |
| Generation.JoinContainsEach | src/langfuzz/redteam.py:96 | every item of `"\n".join(xs)` occurs in the joined text |
| Generation.SeenQuestionsInPrompt | src/langfuzz/redteam.py:94-96 | every seen question occurs in the prompt after the formatted template |
| Generation.FanOut | src/langfuzz/redteam.py:170-171 | one unit per pair, in pair order, each sent to `judge_graph_node` with that pair's two questions |
| Generation.FanOutPayloads | src/langfuzz/redteam.py:170-171 | the fan-out loses and invents nothing: the units carry exactly the generated pairs |
| Setup.Load | src/langfuzz/redteam.py:196-203 | with a path and an existing file the record is the file's content; with a path and a missing file, or with no path, it is `{}` |
| Setup.LoadSeen | src/langfuzz/redteam.py:209-212 | the seen questions start as the record's `generated_questions`, or `[]` when the key is absent |
| Setup.ResolveCount | src/langfuzz/redteam.py:205-208 | a truthy argument wins; a falsy one (absent or 0) falls through to `config.get(key, 10)`, taken as it is |
| Setup.ResolveDatasetId | src/langfuzz/redteam.py:204 | the dataset id is the first truthy of argument, configuration and record, else the record's value (possibly None) |
| Setup.Resolve | src/langfuzz/redteam.py:204-208 | each of the four parameters is its argument when that is truthy, and otherwise the configuration's value (or 10); for the dataset id a falsy argument defers to a truthy configured id, and to the record's value when the configured one is falsy too |
| Setup.ZeroArgumentFallsThrough | src/langfuzz/redteam.py:205-208 | a numeric argument of 0 resolves exactly as an absent one does |
| Setup.UnsetCountIsDefault | src/langfuzz/redteam.py:205-208 | a parameter given neither as argument nor in the configuration resolves to 10 |
| Setup.EnsureDataset | src/langfuzz/redteam.py:215-222 | a dataset is created iff no id resolved (None, not merely falsy); the new id is stored in the record and written iff the loaded record is non-empty; the record's other keys are untouched |
| Setup.StoredIdPreventsCreation | src/langfuzz/redteam.py:204-215 | a record holding a dataset id never leads to a new dataset, whatever the arguments and configuration |
| Setup.RestartReusesDataset | src/langfuzz/redteam.py:204-222 | a session that creates a dataset from a non-empty record stores its id, so a later session from that record reuses it |
| Setup.EmptyRecordLosesDatasetId | src/langfuzz/redteam.py:215-222 | from an empty record the created id is not stored, so the next session creates yet another dataset |
| Curation.Decision | src/langfuzz/redteam.py:267-286 | the keystroke table: "1" adds the first question, "2" the second, "3" nothing, "q" quits, anything else adds both |
| Curation.AddedQuestionsComeFromPair | src/langfuzz/redteam.py:267-286 | the examples a keystroke adds are one or both of the shown pair's questions, in order; only "3" and "q" add nothing |
| Curation.CallsFor | src/langfuzz/redteam.py:268-286 | a decision issues at most one `create_examples` call: one exactly when it adds questions, on the given dataset and with exactly those questions |
| Curation.LoopBranchAsWritten | src/langfuzz/redteam.py:256-294 | the loop's branch with `if results:` as written |
| Curation.AsWrittenNeverExits | src/langfuzz/redteam.py:256-288 | as written the loop takes the pop branch even on an empty queue after the producer finished, so its exit is unreachable |
| Curation.LoopBranch | src/langfuzz/redteam.py:256-294 | corrected: pop iff the queue is non-empty, leave iff it is empty and the producer finished, wait otherwise |
| Redteam.Queued | src/langfuzz/redteam.py:237-238 | the queue entries a batch produces are no more than its answers, each keyed by its answer's similarity, which is at most the threshold |
| Redteam.Rejected | src/langfuzz/redteam.py:239-241 | the questions a batch adds to the seen list come in pairs, two per answer at most |
| Redteam.RoutingPartition | src/langfuzz/redteam.py:236-244 | an answer is queued, with its similarity as priority, iff its similarity is at most the threshold; every other answer contributes both questions to the seen list; nothing is lost or invented |
| Redteam.Client.constructor | src/langfuzz/redteam.py:214 | the client starts with no `create_examples` calls logged |
| Redteam.Session.constructor | src/langfuzz/redteam.py:194-222 | the session starts from the loaded record, the resolved parameters and the lazy-dataset outcome, with an empty queue and no examples |
| Redteam.Session.Dispatch | src/langfuzz/redteam.py:237-244 | one answer is queued or, with a path, recorded and written; the file keeps matching the record, and only answers within the threshold are queued |
| Redteam.Session.CollectAnswers | src/langfuzz/redteam.py:236-244 | a batch of answers extends the queue by exactly the routed entries and the seen list by exactly the rejected questions, in order; the record's `generated_questions` is rewritten only when a question was recorded, and is otherwise left untouched |
| Redteam.Session.Step | src/langfuzz/redteam.py:256-294 | a loop turn with the corrected `Curation.LoopBranch` (the queue tested for emptiness, not for truthiness): on the pop branch a least result is taken out, and with a path its questions are recorded and written before it is shown |
| Redteam.Session.Decide | src/langfuzz/redteam.py:267-286 | the keystroke issues exactly the `create_examples` calls the table asks for, on the session's dataset, and "q" quits |
| Redteam.Session.Draw | src/langfuzz/redteam.py:256-266 | after the producer finished, following the corrected `Curation.LoopBranch`: a pop extends the run's legal pop sequence and its recorded questions, or the queue is empty; the record changes only in its `generated_questions`, and only when a pair was recorded |
| Redteam.Session.Pick | src/langfuzz/redteam.py:256-267 | following the corrected `Curation.LoopBranch`: draws the next result, or ends the run when the queue is empty or no keystroke is left; the record changes only in its `generated_questions`, and only when a pair was recorded |
| Redteam.Session.Respond | src/langfuzz/redteam.py:267-286 | the keystroke for the result just drawn extends the run's example calls, and "q" ends the run |
| Redteam.Session.Curate | src/langfuzz/redteam.py:256-294 | the whole loop with the corrected `Curation.LoopBranch`: results shown in a legal pop order, each recorded and written (when a path is set) before being shown, each keystroke acting on the result it follows, stopping on "q" or, unlike the code as written, on an empty queue; the record changes only in its `generated_questions`, and only when some pair was recorded, so a run that shows nothing writes nothing |

## Left out

- Model calls: `call_model.py`, the target model, the judge and the generation model. Their outputs are inputs here: the generated pairs, the judged answers and their similarities.
- LangGraph wiring, `astream` and the enforcement of `max_concurrency`. The value is resolved but not used to limit anything.
- Threads: the producer and the curation loop are a sequential interleaving. `Curate` runs the loop only after the producer has finished, so the wait branch and `got_results` are not exercised there. `Step` models a single turn with the producer still alive.
- End of input: `Curate` takes the operator's keystrokes as the finite `keys`, and the stop reason `OutOfInput` marks a result drawn after they are used up. In the source, `input()` would then keep waiting for the operator, or raise `EOFError` when standard input is closed; neither the wait nor the exception is modelled.
- I/O: clearing the screen, printing, `time.sleep`, `_show_results`, JSON encoding and decoding, the `strftime` dataset name, argument parsing and `main`.
  - Keystrokes are the `keys` parameter.
  - The id of a new dataset is the `freshId` parameter.
  - The file's content is a `Record`: an existing file is `Some(record)`, a missing one `None`.
- Failures of file writes and remote calls are not modelled; every write and every `create_examples` call succeeds.
- Record fields of the wrong JSON type, e.g. a `generated_questions` that is not a list, are not modelled.
- JSON floats, booleans, lists and objects as parameter values: `Values.Value` holds only None, str and int. A configured `"max_similarity": 7.5` (compared as a float) or `"n": 5.0` (shown as "5.0" in the prompt) cannot be expressed.
- Redteam.Session.constructor: requires `max_similarity` to resolve to an int. The source compares it with each similarity, which raises `TypeError` for a string or `None`.
- Behaviour a reader might not expect, modelled as the code does it:
  - the seen questions are appended without removing duplicates;
  - a created dataset id is stored only when the loaded record is non-empty (`Setup.EmptyRecordLosesDatasetId`);
  - results still queued when the operator quits are never recorded as seen.

## Findings

| source | as written | input that shows it | evidently intended | confidence | as-written member | corrected member |
|---|---|---|---|---|---|---|
| src/langfuzz/redteam.py:257 | `if results:` tests the `PriorityQueue` object, which defines neither `__bool__` nor `__len__` and so is always truthy | queue empty and producer thread finished: the loop calls `results.get()`, which blocks for ever, so the `elif not thread.is_alive(): break` exit is never reached | pop only when the queue is non-empty (`not results.empty()`), leave once it is empty and the producer finished | not executed | Curation.AsWrittenNeverExits | Curation.LoopBranch |
