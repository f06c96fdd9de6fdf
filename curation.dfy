/** The operator's side of the curation loop: what each keystroke does with
    the result on screen, and which branch the loop takes next. */
module Curation {
  import opened Values
  import opened Results

  /** What a keystroke asks for: add these questions as dataset examples,
      add nothing, or leave the loop. */
  datatype Action = Add(questions: seq<string>) | Skip | Quit

  /** The keystroke table: "1" adds the first question, "2" the second, "3"
      nothing, "q" quits, and anything else (the empty line included) adds
      both, first question first. */
  function Decision(key: string, a: Answer): (act: Action)
    ensures act.Quit? <==> key == "q"
    ensures act.Skip? <==> key == "3"
    ensures key == "1" ==> act == Add([a.input1])
    ensures key == "2" ==> act == Add([a.input2])
    ensures key !in {"1", "2", "3", "q"} ==> act == Add([a.input1, a.input2])
  {
    if key == "1" then Add([a.input1])
    else if key == "2" then Add([a.input2])
    else if key == "3" then Skip
    else if key == "q" then Quit
    else Add([a.input1, a.input2])
  }

  /** `xs` is `ys` with some elements left out, order kept. */
  predicate IsSubsequence(xs: seq<string>, ys: seq<string>) {
    xs == [] || (ys != [] && (if xs[0] == ys[0] then IsSubsequence(xs[1..], ys[1..]) else IsSubsequence(xs, ys[1..])))
  }

  /** Whatever the keystroke, the examples added are one or both of the shown
      pair's questions, in the pair's order, never anything else; only "3" and
      "q" add nothing. */
  lemma AddedQuestionsComeFromPair(key: string, a: Answer)
    ensures Decision(key, a).Add? ==> 1 <= |Decision(key, a).questions| <= 2
    ensures Decision(key, a).Add? ==> IsSubsequence(Decision(key, a).questions, [a.input1, a.input2])
    ensures Decision(key, a).Add? <==> key != "3" && key != "q"
  {
    var pair := [a.input1, a.input2];
    assert pair[1..] == [a.input2] && pair[1..][1..] == [];
    assert IsSubsequence([a.input2], [a.input2]);
  }

  /** One `create_examples` call: the dataset it targets and the questions it adds. */
  datatype ExampleCall = ExampleCall(dataset: Value, questions: seq<string>)

  /** The calls a decision issues: one call for an Add, none otherwise. */
  function CallsFor(dataset: Value, act: Action): (calls: seq<ExampleCall>)
    ensures |calls| <= 1
    ensures calls != [] <==> act.Add?
    ensures forall c :: c in calls ==> c.dataset == dataset && act.Add? && c.questions == act.questions
  {
    match act
    case Add(qs) => [ExampleCall(dataset, qs)]
    case _ => []
  }

  /** The branches of the curation loop: take the next result, leave the loop,
      or wait a tick for the producer. */
  datatype Branch = PopNext | Exit | Wait

  /** `if results:` as written. A `queue.PriorityQueue` defines neither
      `__bool__` nor `__len__`, so the object is truthy whatever it holds. */
  predicate QueueTruthyAsWritten(queue: seq<Result>) {
    true
  }

  /** The loop's branch as written: `if results` / `elif not thread.is_alive()` / else wait. */
  function LoopBranchAsWritten(queue: seq<Result>, producerAlive: bool): Branch {
    if QueueTruthyAsWritten(queue) then PopNext else if !producerAlive then Exit else Wait
  }

  /** As written the loop never reaches its exit: with the queue empty and the
      producer finished it still takes the pop branch, and `get()` on an empty
      queue blocks for ever. */
  lemma AsWrittenNeverExits(queue: seq<Result>, producerAlive: bool)
    ensures LoopBranchAsWritten(queue, producerAlive) == PopNext
    ensures LoopBranchAsWritten([], false) == PopNext
  {
  }

  /** The loop's branch as intended: pop when the queue holds something, leave
      when it is empty and the producer has finished, wait otherwise. */
  function LoopBranch(queue: seq<Result>, producerAlive: bool): (b: Branch)
    ensures b == PopNext <==> queue != []
    ensures b == Exit <==> queue == [] && !producerAlive
    ensures b == Wait <==> queue == [] && producerAlive
  {
    if queue != [] then PopNext else if !producerAlive then Exit else Wait
  }
}
