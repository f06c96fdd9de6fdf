/** Pair generation as far as it is logic of the session itself: the prompt
    handed to the generation model, and the fan-out that turns each generated
    pair into one evaluation unit for the judge subgraph. The model call
    itself is not modelled; its output is the `pairs` sequence. */
module Generation {
  import opened Values

  /** The question template up to `{chatbot_description}`. */
  const TemplateHead: string := "You are benevolent white hat hacker. Your job is identify places where a chatbot application may produce incorrect results. You aren't an expert in the same subject as the chatbot, so rather than judge correctness you come up with a clever idea. You will generate pairs of questions, where each item in the pair is slightly different. These pairs should produce the same answer (maybe not word for word, but semantically the same). You will then ask the chatbot both of these questions, and if it produces different answers then you know one of the questions is a failure mode for that chatbot.\n\nThe chatbot you are redteaming is:\n\n"
  /** The template between `{chatbot_description}` and `{n}`. */
  const TemplateMiddle: string := "\n\nPlease a list of pairs of questions that are relevant to this chatbot. Make sure to generate a diverse set of questions. Only generate "
  /** The template after `{n}`. */
  const TemplateTail: string := " questions."
  /** The fixed text put before the already generated questions. */
  const SeenHeader: string := "\n\nHere are some questions that have already been generated, don't duplicate them: "

  /** The question template with the description and `str(n)` filled in. */
  function FormatTemplate(description: string, n: Value): (text: string)
    ensures TemplateHead <= text
    ensures OccursAt(description, text, |TemplateHead|)
    ensures OccursAt(Show(n), text, |TemplateHead| + |description| + |TemplateMiddle|)
    ensures |text| == |TemplateHead| + |description| + |TemplateMiddle| + |Show(n)| + |TemplateTail|
  {
    FilledSlots(TemplateHead, description, TemplateMiddle, Show(n), TemplateTail);
    TemplateHead + description + TemplateMiddle + Show(n) + TemplateTail
  }

  /** Where the two filled-in values sit in a template with two slots. */
  lemma FilledSlots(head: string, x: string, middle: string, y: string, tail: string)
    ensures head <= head + x + middle + y + tail
    ensures OccursAt(x, head + x + middle + y + tail, |head|)
    ensures OccursAt(y, head + x + middle + y + tail, |head| + |x| + |middle|)
  {
    var text := head + x + middle + y + tail;
    var k := |head| + |x| + |middle|;
    assert text[|head|..|head| + |x|] == x;
    assert text[k..k + |y|] == y;
  }

  /** Python's `sep.join(xs)`. */
  function Join(sep: string, xs: seq<string>): (s: string)
    ensures xs == [] ==> s == ""
    ensures xs != [] ==> xs[0] <= s && |s| == Lengths(xs) + (|xs| - 1) * |sep|
  {
    if xs == [] then "" else if |xs| == 1 then xs[0] else xs[0] + sep + Join(sep, xs[1..])
  }

  /** The total length of the items. */
  function Lengths(xs: seq<string>): nat {
    if xs == [] then 0 else |xs[0]| + Lengths(xs[1..])
  }

  /** `part` occurs in `whole` starting at position `k`. */
  predicate OccursAt(part: string, whole: string, k: int) {
    0 <= k <= |whole| - |part| && whole[k..k + |part|] == part
  }

  /** `part` occurs in `whole` as a contiguous piece. */
  ghost predicate OccursIn(part: string, whole: string) {
    exists k :: OccursAt(part, whole, k)
  }

  lemma OccursAfter(part: string, whole: string, prefix: string)
    requires OccursIn(part, whole)
    ensures OccursIn(part, prefix + whole)
  {
    var k :| OccursAt(part, whole, k);
    assert (prefix + whole)[|prefix| + k..|prefix| + k + |part|] == part;
    assert OccursAt(part, prefix + whole, |prefix| + k);
  }

  /** Every joined item occurs in the joined text. */
  lemma {:induction false} JoinContainsEach(sep: string, xs: seq<string>, i: nat)
    requires i < |xs|
    ensures OccursIn(xs[i], Join(sep, xs))
  {
    if |xs| > 1 && i > 0 {
      JoinContainsEach(sep, xs[1..], i - 1);
      OccursAfter(xs[i], Join(sep, xs[1..]), xs[0] + sep);
    } else {
      assert OccursAt(xs[0], Join(sep, xs), 0);
    }
  }

  /** What the prompt carries after the formatted template. */
  function SeenSuffix(seen: seq<string>): string {
    if seen != [] then SeenHeader + Join("\n", seen) else ""
  }

  /** A prompt `base` followed, when some questions have been seen, by the
      fixed header and those questions one per line. */
  function WithSeen(base: string, seen: seq<string>): (prompt: string)
    ensures base <= prompt
    ensures prompt == base <==> seen == []
    ensures seen != [] ==> OccursAt(SeenHeader, prompt, |base|)
    ensures seen != [] ==> prompt[|base| + |SeenHeader|..] == Join("\n", seen)
  {
    assert |SeenHeader| > 0;
    if seen == [] then base
    else
      Appended(base, SeenHeader, Join("\n", seen));
      base + (SeenHeader + Join("\n", seen))
  }

  /** The prompt for the generation model: the formatted template, followed,
      when some questions have been seen, by the fixed header and those
      questions one per line. */
  function GenerationPrompt(description: string, n: Value, seen: seq<string>): (prompt: string)
    ensures var base := FormatTemplate(description, n);
            && base <= prompt
            && (prompt == base <==> seen == [])
            && (seen != [] ==> OccursAt(SeenHeader, prompt, |base|))
            && (seen != [] ==> prompt[|base| + |SeenHeader|..] == Join("\n", seen))
  {
    WithSeen(FormatTemplate(description, n), seen)
  }

  /** Where the header and the text after it sit once appended to `base`. */
  lemma Appended(base: string, header: string, rest: string)
    ensures OccursAt(header, base + (header + rest), |base|)
    ensures (base + (header + rest))[|base| + |header|..] == rest
  {
    assert (base + (header + rest))[|base|..|base| + |header|] == header;
  }

  lemma DropPrefix(a: string, b: string)
    ensures (a + b)[|a|..] == b
  {
  }

  /** Every seen question is shown to the generation model, after the formatted template. */
  lemma SeenQuestionsInPrompt(description: string, n: Value, seen: seq<string>, i: nat)
    requires i < |seen|
    ensures OccursIn(seen[i], GenerationPrompt(description, n, seen)[|FormatTemplate(description, n)|..])
  {
    JoinContainsEach("\n", seen, i);
    OccursAfter(seen[i], Join("\n", seen), SeenHeader);
    DropPrefix(FormatTemplate(description, n), SeenSuffix(seen));
  }

  /** One generated pair. */
  datatype Pair = Pair(input1: string, input2: string)

  /** One evaluation unit: the node it is sent to and the two questions it carries. */
  datatype Send = Send(node: string, input1: string, input2: string)

  const JudgeNode: string := "judge_graph_node"

  /** The fan-out after generation: one unit per pair, in pair order, each
      addressed to the judge subgraph with that pair's two questions. */
  function FanOut(pairs: seq<Pair>): (units: seq<Send>)
    ensures |units| == |pairs|
    ensures forall i :: 0 <= i < |pairs| ==>
              units[i].node == JudgeNode && units[i].input1 == pairs[i].input1 && units[i].input2 == pairs[i].input2
  {
    if pairs == [] then [] else [Send(JudgeNode, pairs[0].input1, pairs[0].input2)] + FanOut(pairs[1..])
  }

  /** The pairs that a sequence of units carries. */
  function Payloads(units: seq<Send>): seq<Pair> {
    if units == [] then [] else [Pair(units[0].input1, units[0].input2)] + Payloads(units[1..])
  }

  /** Fan-out loses and invents nothing: the units carry exactly the generated pairs. */
  lemma {:induction false} FanOutPayloads(pairs: seq<Pair>)
    ensures Payloads(FanOut(pairs)) == pairs
  {
    if pairs != [] {
      FanOutPayloads(pairs[1..]);
      assert FanOut(pairs)[1..] == FanOut(pairs[1..]);
    }
  }
}
