/** One red-teaming session: the state `run_redteam` keeps while the producer
    routes judged answers and the operator curates them. The producer thread
    and the foreground loop are modelled as a sequential interleaving of the
    methods below; the persistence file is the ghost `persisted` record,
    which every write sets to the in-memory record. */
module Redteam {
  import opened Values
  import opened Results
  import opened Setup
  import opened Curation

  /** The answers of a batch that go to the queue, as queue entries, in arrival order. */
  function Queued(answers: seq<Answer>, threshold: int): (q: seq<Result>)
    ensures |q| <= |answers|
    ensures forall r :: r in q ==> r.prio <= threshold && r.prio == r.answer.judge.similarity
  {
    if answers == [] then []
    else
      var a := answers[|answers| - 1];
      Queued(answers[..|answers| - 1], threshold)
        + (if a.judge.similarity <= threshold then [Result(a.judge.similarity, a)] else [])
  }

  /** The questions of the answers of a batch that do not go to the queue, pair by pair. */
  function Rejected(answers: seq<Answer>, threshold: int): (qs: seq<string>)
    ensures |qs| % 2 == 0 && |qs| <= 2 * |answers|
  {
    if answers == [] then []
    else
      var a := answers[|answers| - 1];
      Rejected(answers[..|answers| - 1], threshold)
        + (if a.judge.similarity <= threshold then [] else [a.input1, a.input2])
  }

  /** Routing splits a batch exactly: an answer is queued iff its similarity is
      at most the threshold, with its similarity as priority; every other
      answer contributes both its questions to the rejected list. */
  lemma {:induction false} RoutingPartition(answers: seq<Answer>, threshold: int)
    ensures forall r :: r in Queued(answers, threshold) ==>
              r.answer in answers && r.prio == r.answer.judge.similarity && r.prio <= threshold
    ensures forall a :: a in answers && a.judge.similarity <= threshold ==>
              Result(a.judge.similarity, a) in Queued(answers, threshold)
    ensures forall a :: a in answers && a.judge.similarity > threshold ==>
              a.input1 in Rejected(answers, threshold) && a.input2 in Rejected(answers, threshold)
    ensures 2 * |Queued(answers, threshold)| + |Rejected(answers, threshold)| == 2 * |answers|
  {
    if answers != [] {
      var init := answers[..|answers| - 1];
      RoutingPartition(init, threshold);
      assert answers == init + [answers[|answers| - 1]];
    }
  }

  /** Routing a batch with one more answer routes the batch, then that answer. */
  lemma RoutingSnoc(answers: seq<Answer>, i: nat, threshold: int)
    requires i < |answers|
    ensures Queued(answers[..i + 1], threshold) == Queued(answers[..i], threshold) + Queued([answers[i]], threshold)
    ensures Rejected(answers[..i + 1], threshold) == Rejected(answers[..i], threshold) + Rejected([answers[i]], threshold)
  {
    assert answers[..i + 1][..i] == answers[..i];
    assert [answers[i]][..0] == [];
  }

  /** Routing one more answer of a batch after routing those before it
      routes the longer prefix of the batch. */
  lemma CollectStep(answers: seq<Answer>, i: nat, threshold: int, hasPath: bool,
                    queue0: seq<Result>, seen0: seq<string>, queue1: seq<Result>, seen1: seq<string>,
                    queue2: seq<Result>, seen2: seq<string>)
    requires i < |answers|
    requires queue1 == queue0 + Queued(answers[..i], threshold)
    requires seen1 == seen0 + (if hasPath then Rejected(answers[..i], threshold) else [])
    requires queue2 == queue1 + Queued([answers[i]], threshold)
    requires seen2 == seen1 + (if hasPath then Rejected([answers[i]], threshold) else [])
    ensures queue2 == queue0 + Queued(answers[..i + 1], threshold)
    ensures seen2 == seen0 + (if hasPath then Rejected(answers[..i + 1], threshold) else [])
  {
    RoutingSnoc(answers, i, threshold);
  }

  /** The questions of the shown results, pair by pair, in the order shown. */
  function QuestionsOf(shown: seq<Result>): seq<string> {
    if shown == [] then []
    else QuestionsOf(shown[..|shown| - 1]) + [shown[|shown| - 1].answer.input1, shown[|shown| - 1].answer.input2]
  }

  /** The `create_examples` calls the first |shown| keystrokes issue. */
  function Examples(dataset: Value, shown: seq<Result>, keys: seq<string>): seq<ExampleCall>
    requires |shown| <= |keys|
  {
    if shown == [] then []
    else
      var k := |shown| - 1;
      Examples(dataset, shown[..k], keys) + CallsFor(dataset, Decision(keys[k], shown[k].answer))
  }

  /** Showing one more result extends the recorded questions by that result's pair. */
  lemma RecordedSnoc(seen0: seq<string>, shown: seq<Result>, r: Result, hasPath: bool)
    ensures (seen0 + (if hasPath then QuestionsOf(shown) else [])) + (if hasPath then [r.answer.input1, r.answer.input2] else [])
            == seen0 + (if hasPath then QuestionsOf(shown + [r]) else [])
  {
    assert (shown + [r])[..|shown|] == shown;
  }

  /** Deciding on one more shown result extends the example calls by that decision's calls. */
  lemma ExamplesSnoc(examples0: seq<ExampleCall>, dataset: Value, shown: seq<Result>, r: Result, keys: seq<string>)
    requires |shown| < |keys|
    ensures (examples0 + Examples(dataset, shown, keys)) + CallsFor(dataset, Decision(keys[|shown|], r.answer))
            == examples0 + Examples(dataset, shown + [r], keys)
  {
    assert (shown + [r])[..|shown|] == shown;
  }

  /** None of the first `n` keystrokes is "q". */
  predicate NoQuitBefore(keys: seq<string>, n: nat) {
    forall j :: 0 <= j < n && j < |keys| ==> keys[j] != "q"
  }

  /** Why the curation loop stopped: the queue ran dry after the producer
      finished, the operator typed "q", or the input ended. */
  datatype Stop = Drained | Quitted | OutOfInput

  /** The loop stopped for the reason given after showing `count` results:
      "q" ends it on the result it follows and nothing else does, and when the
      keystrokes run out the result then on screen gets none. */
  predicate StoppedAsTold(keys: seq<string>, count: nat, stop: Stop) {
    match stop
    case Drained => count <= |keys| && NoQuitBefore(keys, count)
    case Quitted => 1 <= count <= |keys| && keys[count - 1] == "q" && NoQuitBefore(keys, count - 1)
    case OutOfInput => count == |keys| + 1 && NoQuitBefore(keys, |keys|)
  }

  /** The shown results a keystroke was read for. */
  function Decided(shown: seq<Result>, keys: seq<string>): (d: seq<Result>)
    ensures |d| <= |keys|
  {
    if |shown| <= |keys| then shown else shown[..|keys|]
  }

  /** Leaving on an empty queue meets its stop reason, and every shown result
      got a keystroke. */
  lemma DrainedFacts(keys: seq<string>, shown: seq<Result>)
    requires |shown| <= |keys| && NoQuitBefore(keys, |shown|)
    ensures StoppedAsTold(keys, |shown|, Drained) && Decided(shown, keys) == shown
  {
  }

  /** How the two exits taken after drawing one more result, `r`, meet their
      stop reason, and which shown results got a keystroke. */
  lemma ExitFacts(keys: seq<string>, shown: seq<Result>, r: Result)
    requires |shown| <= |keys| && NoQuitBefore(keys, |shown|)
    ensures |shown| == |keys| ==>
              StoppedAsTold(keys, |shown| + 1, OutOfInput) && Decided(shown + [r], keys) == shown
    ensures |shown| < |keys| && keys[|shown|] == "q" ==>
              StoppedAsTold(keys, |shown| + 1, Quitted) && Decided(shown + [r], keys) == shown + [r]
  {
    assert (shown + [r])[..|shown|] == shown;
  }

  /** The LangSmith client as far as the session uses it: the
      `create_examples` calls it has received, in order. */
  class Client {
    var examples: seq<ExampleCall>

    constructor ()
      ensures examples == []
    {
      examples := [];
    }
  }

  class Session {
    /** A persistence path was given. */
    const hasPath: bool
    /** The resolved parameters. */
    const settings: Settings
    /** max_similarity, the highest similarity that still goes to the queue. */
    const threshold: int
    /** The dataset examples are added to. */
    const datasetId: Value
    /** The id of the dataset this session created, if it created one. */
    const createdDataset: Option<string>
    /** generated_questions. */
    var seen: seq<string>
    /** The in-memory persistence dict. */
    var persistence: Record
    /** The contents of the results PriorityQueue, in arrival order. */
    var queue: seq<Result>
    /** The LangSmith client examples are added through. */
    const client: Client
    /** The persistence file's content. */
    ghost var persisted: Record
    /** generated_questions as loaded at start. */
    ghost const loadedSeen: seq<string>

    ghost predicate Valid()
      reads this`seen, this`persistence, this`persisted, this`queue
    {
      // the file always holds what is in memory, so a reload finds every recorded question
      (hasPath ==> persisted == persistence && LoadSeen(persisted) == seen)
      // without a path nothing is recorded and no file is touched
      && (!hasPath ==> persistence == EmptyRecord && persisted == EmptyRecord && seen == [])
      && LoadSeen(persistence) == seen
      // seen questions only grow
      && loadedSeen <= seen
      // only answers at or below the threshold are queued, keyed by their similarity
      && (forall r :: r in queue ==> r.prio == r.answer.judge.similarity && r.prio <= threshold)
    }

    /** Session setup: load the record, resolve the parameters, load the seen
        questions and create a dataset when no id resolved. */
    constructor (args: Args, config: map<string, Value>, hasPath: bool, file: Option<Record>, freshId: string)
      requires Resolve(args, config, Load(hasPath, file)).maxSimilarity.Int?
      ensures Valid()
      ensures this.hasPath == hasPath
      ensures settings == Resolve(args, config, Load(hasPath, file))
      ensures threshold == settings.maxSimilarity.i
      ensures var d := EnsureDataset(settings.datasetId, freshId, Load(hasPath, file));
              datasetId == d.id && createdDataset == d.created && persistence == d.record
      ensures seen == LoadSeen(Load(hasPath, file)) && loadedSeen == seen
      ensures queue == [] && fresh(client) && client.examples == []
    {
      var loaded := Load(hasPath, file);
      var resolved := Resolve(args, config, loaded);
      var step := EnsureDataset(resolved.datasetId, freshId, loaded);
      this.hasPath := hasPath;
      settings := resolved;
      threshold := resolved.maxSimilarity.i;
      datasetId := step.id;
      createdDataset := step.created;
      seen := LoadSeen(loaded);
      loadedSeen := LoadSeen(loaded);
      persistence := step.record;
      persisted := step.record;
      queue := [];
      client := new Client();
    }

    /** The producer's handling of one judged answer: queue it when its
        similarity is at most the threshold; otherwise, when a path is set,
        record both its questions and write the record. */
    method Dispatch(a: Answer)
      requires Valid()
      modifies this
      ensures Valid()
      ensures queue == old(queue) + Queued([a], threshold)
      ensures seen == old(seen) + (if hasPath then Rejected([a], threshold) else [])
      ensures persistence == if hasPath && a.judge.similarity > threshold
                             then old(persistence).(questions := Some(seen)) else old(persistence)
    {
      assert [a][..0] == [];
      if a.judge.similarity <= threshold {
        queue := queue + [Result(a.judge.similarity, a)];
      } else if hasPath {
        seen := seen + [a.input1, a.input2];
        persistence := persistence.(questions := Some(seen));
        persisted := persistence;
      }
    }

    /** The producer's loop over the answers of one streamed event. */
    method CollectAnswers(answers: seq<Answer>)
      requires Valid()
      modifies this
      ensures Valid()
      ensures queue == old(queue) + Queued(answers, threshold)
      ensures seen == old(seen) + (if hasPath then Rejected(answers, threshold) else [])
      ensures persistence == if hasPath && seen != old(seen) then old(persistence).(questions := Some(seen)) else old(persistence)
    {
      ghost var queue0, seen0, record0 := queue, seen, persistence;
      var i := 0;
      while i < |answers|
        invariant 0 <= i <= |answers|
        invariant Valid()
        invariant queue == queue0 + Queued(answers[..i], threshold)
        invariant seen == seen0 + (if hasPath then Rejected(answers[..i], threshold) else [])
        invariant persistence == if hasPath && seen != seen0 then record0.(questions := Some(seen)) else record0
      {
        ghost var queue1, seen1 := queue, seen;
        Dispatch(answers[i]);
        CollectStep(answers, i, threshold, hasPath, queue0, seen0, queue1, seen1, queue, seen);
        i := i + 1;
      }
      assert answers[..i] == answers;
    }

    /** One turn of the curation loop, with the queue tested for emptiness as
        intended. On the pop branch a least result is taken out and, when a
        path is set, its two questions are recorded and written to the file
        before the result is shown or any keystroke is read. */
    method Step(producerAlive: bool) returns (branch: Branch, popped: Option<Result>)
      requires Valid()
      modifies this`seen, this`persistence, this`persisted, this`queue
      ensures Valid()
      ensures branch == LoopBranch(old(queue), producerAlive)
      ensures branch != PopNext ==>
                popped.None? && queue == old(queue) && seen == old(seen) && persistence == old(persistence)
      ensures branch == PopNext ==>
                popped.Some? && IsMin(popped.value, multiset(old(queue)))
                && multiset(queue) == multiset(old(queue)) - multiset{popped.value}
                && |queue| == |old(queue)| - 1
                && seen == old(seen) + (if hasPath then [popped.value.answer.input1, popped.value.answer.input2] else [])
                && persistence == if hasPath then old(persistence).(questions := Some(seen)) else old(persistence)
    {
      branch := LoopBranch(queue, producerAlive);
      if branch != PopNext {
        popped := None;
        return;
      }
      var k := MinIndex(queue);
      MinIndexIsMin(queue, k);
      var r := queue[k];
      queue := RemoveAt(queue, k);
      if hasPath {
        seen := seen + [r.answer.input1, r.answer.input2];
        persistence := persistence.(questions := Some(seen));
        persisted := persistence;
      }
      popped := Some(r);
    }

    /** The operator's keystroke on a shown result: issue the example calls
        the keystroke table asks for, and report whether it was "q". */
    method Decide(r: Result, key: string) returns (quit: bool)
      modifies client
      ensures quit <==> key == "q"
      ensures client.examples == old(client.examples) + CallsFor(datasetId, Decision(key, r.answer))
    {
      var act := Decision(key, r.answer);
      client.examples := client.examples + CallsFor(datasetId, act);
      quit := act.Quit?;
    }

    /** What a curation run that started from queue contents `queue0` and seen
        questions `seen0` has done so far: `shown` came out of the queue in
        pop order and each shown pair is recorded. */
    ghost predicate Drawn(queue0: multiset<Result>, seen0: seq<string>, shown: seq<Result>)
      reads this`seen, this`persistence, this`persisted, this`queue
    {
      Valid()
      && PopOrder(queue0, shown)
      && multiset(queue) + multiset(shown) == queue0
      && seen == seen0 + (if hasPath then QuestionsOf(shown) else [])
    }

    /** The pop branch of the curation loop after the producer has finished,
        seen from the whole run: one more result drawn, or none when the queue
        is empty. */
    method Draw(ghost queue0: multiset<Result>, ghost seen0: seq<string>, ghost shown: seq<Result>)
      returns (popped: Option<Result>)
      requires Drawn(queue0, seen0, shown)
      modifies this`seen, this`persistence, this`persisted, this`queue
      ensures popped.None? ==> queue == [] && Drawn(queue0, seen0, shown)
      ensures popped.Some? ==> |queue| < old(|queue|) && Drawn(queue0, seen0, shown + [popped.value])
      ensures persistence == if hasPath && seen != old(seen) then old(persistence).(questions := Some(seen)) else old(persistence)
    {
      var branch;
      branch, popped := Step(false);
      if branch == Exit {
        return;
      }
      var r := popped.value;
      RecordedSnoc(seen0, shown, r, hasPath);
      PopOrderExtend(queue0, shown, r);
      assert multiset(shown + [r]) == multiset(shown) + multiset{r};
    }

    /** What the keystrokes read so far have done: one keystroke per shown
        result, none of them "q", and the example calls they asked for. */
    ghost predicate Heeded(examples0: seq<ExampleCall>, shown: seq<Result>, keys: seq<string>)
      reads client
    {
      |shown| <= |keys| && NoQuitBefore(keys, |shown|)
      && client.examples == examples0 + Examples(datasetId, shown, keys)
    }

    /** A curation run so far: results drawn in pop order and recorded, and
        one keystroke heeded for each. */
    ghost predicate Progress(queue0: multiset<Result>, seen0: seq<string>, examples0: seq<ExampleCall>,
                             shown: seq<Result>, keys: seq<string>)
      reads this`seen, this`persistence, this`persisted, this`queue, client
    {
      Drawn(queue0, seen0, shown) && Heeded(examples0, shown, keys)
    }

    /** A finished curation run: what it drew, why it stopped, and the example
        calls of the keystrokes it read. */
    ghost predicate Finished(queue0: multiset<Result>, seen0: seq<string>, examples0: seq<ExampleCall>,
                             shown: seq<Result>, keys: seq<string>, stop: Stop)
      reads this`seen, this`persistence, this`persisted, this`queue, client
    {
      Drawn(queue0, seen0, shown)
      && (stop == Drained ==> queue == [])
      && StoppedAsTold(keys, |shown|, stop)
      && client.examples == examples0 + Examples(datasetId, Decided(shown, keys), keys)
    }

    /** The first half of a turn of the curation loop after the producer has
        finished: draw a result to show, or stop when the queue is empty or when
        no keystroke is left for the drawn result. */
    method Pick(ghost queue0: multiset<Result>, ghost seen0: seq<string>, ghost examples0: seq<ExampleCall>,
                keys: seq<string>, shown: seq<Result>)
      returns (next: seq<Result>, stop: Option<Stop>)
      requires Progress(queue0, seen0, examples0, shown, keys)
      modifies this`seen, this`persistence, this`persisted, this`queue
      ensures stop.None? ==>
                |queue| < old(|queue|) && |shown| < |keys| && |next| == |shown| + 1 && next[..|shown|] == shown
                && Drawn(queue0, seen0, next) && Heeded(examples0, shown, keys)
      ensures stop.Some? ==> Finished(queue0, seen0, examples0, next, keys, stop.value)
      ensures persistence == if hasPath && seen != old(seen) then old(persistence).(questions := Some(seen)) else old(persistence)
    {
      var popped := Draw(queue0, seen0, shown);
      if popped.None? {
        DrainedFacts(keys, shown);
        return shown, Some(Drained);
      }
      next := shown + [popped.value];
      ExitFacts(keys, shown, popped.value);
      stop := if |shown| == |keys| then Some(OutOfInput) else None;
    }

    /** The second half of a turn: the keystroke read for the result just
        drawn, seen from the whole run. */
    method Respond(ghost examples0: seq<ExampleCall>, keys: seq<string>, shown: seq<Result>, next: seq<Result>)
      returns (quit: bool)
      requires Heeded(examples0, shown, keys)
      requires |shown| < |keys| && |next| == |shown| + 1 && next[..|shown|] == shown
      modifies client
      ensures !quit ==> Heeded(examples0, next, keys)
      ensures quit ==> StoppedAsTold(keys, |next|, Quitted)
                       && client.examples == examples0 + Examples(datasetId, Decided(next, keys), keys)
    {
      var r := next[|shown|];
      assert next == shown + [r];
      quit := Decide(r, keys[|shown|]);
      ExamplesSnoc(examples0, datasetId, shown, r, keys);
      ExitFacts(keys, shown, r);
    }

    /** The curation loop once the producer has finished, fed the operator's
        keystrokes in order: results come out least first, each recorded
        before it is shown, and each keystroke acts on the result it follows. */
    method Curate(keys: seq<string>) returns (shown: seq<Result>, stop: Stop)
      requires Valid()
      modifies this, client
      ensures Drawn(multiset(old(queue)), old(seen), shown)
      ensures stop == Drained ==> queue == []
      ensures StoppedAsTold(keys, |shown|, stop)
      ensures client.examples == old(client.examples) + Examples(datasetId, Decided(shown, keys), keys)
      ensures persistence == if hasPath && seen != old(seen) then old(persistence).(questions := Some(seen)) else old(persistence)
    {
      shown := [];
      ghost var queue0, seen0, examples0, record0 := multiset(queue), seen, client.examples, persistence;
      while true
        invariant Progress(queue0, seen0, examples0, shown, keys)
        invariant persistence == if hasPath && seen != seen0 then record0.(questions := Some(seen)) else record0
        decreases |queue|
      {
        var next, s := Pick(queue0, seen0, examples0, keys, shown);
        if s.Some? {
          return next, s.value;
        }
        var quit := Respond(examples0, keys, shown, next);
        if quit {
          return next, Quitted;
        }
        shown := next;
      }
    }
  }
}
