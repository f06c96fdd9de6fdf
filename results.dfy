/** Judged answers and the priority queue that hands them from the producer to
    the curation loop. A `Result` is ordered by its priority (the judge's
    similarity) alone; the answer it carries never takes part in a comparison.
    The queue is modelled by its contents, a sequence in arrival order, and a
    pop takes out one result that no other result is less than. */
module Results {

  /** The judge's structured verdict. */
  datatype Judge = Judge(logic: string, similarity: int)

  /** One evaluated pair: both questions, both answers of the target, and the verdict. */
  datatype Answer = Answer(input1: string, input2: string, output1: string, output2: string, judge: Judge)

  /** A queue entry: the priority and the answer it carries. */
  datatype Result = Result(prio: int, answer: Answer)

  /** The dataclass's `<`: it compares the tuples of compared fields, which hold `prio` only. */
  predicate Lt(a: Result, b: Result): (r: bool)
    ensures r ==> a != b && b.prio > a.prio
    ensures !r ==> a.prio >= b.prio
  {
    a.prio < b.prio
  }

  /** The dataclass's `==`, which likewise looks at `prio` only. */
  predicate Same(a: Result, b: Result): (r: bool)
    ensures a == b ==> r
    ensures r <==> Result(a.prio, b.answer) == b
  {
    a.prio == b.prio
  }

  /** The order is a strict weak order whose ties are exactly the results that
      compare equal, whatever answers they carry. */
  lemma OrderIgnoresAnswer(a: Result, b: Result, c: Result, x: Answer, y: Answer)
    ensures !Lt(a, a)
    ensures Lt(a, b) && Lt(b, c) ==> Lt(a, c)
    ensures !Lt(a, b) && !Lt(b, a) <==> Same(a, b)
    ensures Lt(a, b) <==> Lt(Result(a.prio, x), Result(b.prio, y))
    ensures Same(a, b) <==> Same(Result(a.prio, x), Result(b.prio, y))
  {
  }

  /** `r` is in `m` and nothing in `m` is less than it: a legal answer to `get()`. */
  ghost predicate IsMin(r: Result, m: multiset<Result>) {
    r in m && forall x :: x in m ==> !Lt(x, r)
  }

  /** The position of a least result; `get()` on a non-empty queue takes out such a result. */
  method MinIndex(items: seq<Result>) returns (k: nat)
    requires |items| > 0
    ensures k < |items|
    ensures forall j :: 0 <= j < |items| ==> !Lt(items[j], items[k])
  {
    k := 0;
    var i := 1;
    while i < |items|
      invariant 1 <= i <= |items|
      invariant k < i
      invariant forall j :: 0 <= j < i ==> !Lt(items[j], items[k])
    {
      if Lt(items[i], items[k]) {
        k := i;
      }
      i := i + 1;
    }
  }

  /** The queue without the entry at position `k`. */
  function RemoveAt(items: seq<Result>, k: nat): (rest: seq<Result>)
    requires k < |items|
    ensures multiset(rest) == multiset(items) - multiset{items[k]}
    ensures |rest| == |items| - 1
  {
    assert items == items[..k] + [items[k]] + items[k + 1..];
    items[..k] + items[k + 1..]
  }

  /** The entry at a least position is a least element of the queue's contents. */
  lemma MinIndexIsMin(items: seq<Result>, k: nat)
    requires k < |items|
    requires forall j :: 0 <= j < |items| ==> !Lt(items[j], items[k])
    ensures IsMin(items[k], multiset(items))
  {
    forall x | x in multiset(items) ensures !Lt(x, items[k]) {
      var j :| 0 <= j < |items| && items[j] == x;
    }
  }

  /** `out` is what successive `get()` calls on a queue holding `m` may return
      when nothing is put in between. */
  ghost predicate PopOrder(m: multiset<Result>, out: seq<Result>)
    decreases |out|
  {
    out == [] || (IsMin(out[0], m) && PopOrder(m - multiset{out[0]}, out[1..]))
  }

  /** Successive pops come out with non-decreasing priority, and each is taken from the queue. */
  lemma {:induction false} PopOrderSorted(m: multiset<Result>, out: seq<Result>)
    requires PopOrder(m, out)
    ensures multiset(out) <= m
    ensures forall i, j :: 0 <= i < j < |out| ==> out[i].prio <= out[j].prio
    decreases |out|
  {
    if out != [] {
      var rest := m - multiset{out[0]};
      PopOrderSorted(rest, out[1..]);
      assert out == [out[0]] + out[1..];
      forall i, j | 0 <= i < j < |out| ensures out[i].prio <= out[j].prio {
        if i == 0 {
          assert out[j] in multiset(out[1..]);
        } else {
          assert out[i] == out[1..][i - 1] && out[j] == out[1..][j - 1];
        }
      }
    }
  }

  /** A least element followed by a pop order of what is left is a pop order. */
  lemma PopOrderCons(m: multiset<Result>, h: Result, t: seq<Result>)
    requires IsMin(h, m) && PopOrder(m - multiset{h}, t)
    ensures PopOrder(m, [h] + t)
  {
    assert ([h] + t)[0] == h && ([h] + t)[1..] == t;
  }

  /** Taking out the head and then the tail is taking out the whole sequence. */
  lemma MinusCons(m: multiset<Result>, h: Result, t: seq<Result>)
    requires multiset([h] + t) <= m
    ensures multiset(t) <= m - multiset{h}
    ensures (m - multiset{h}) - multiset(t) == m - multiset([h] + t)
  {
    assert multiset([h] + t) == multiset{h} + multiset(t);
  }

  /** A pop order extended by one more pop from what is left is again a pop order. */
  lemma {:induction false} PopOrderExtend(m: multiset<Result>, out: seq<Result>, r: Result)
    requires PopOrder(m, out)
    requires multiset(out) <= m
    requires IsMin(r, m - multiset(out))
    ensures PopOrder(m, out + [r])
    decreases |out|, 1
  {
    if out == [] {
      assert m - multiset(out) == m && out + [r] == [r] + [];
      PopOrderCons(m, r, []);
    } else {
      assert out == [out[0]] + out[1..];
      PopOrderExtendCons(m, out[0], out[1..], r);
    }
  }

  /** The step of `PopOrderExtend` for a non-empty pop order `[h] + t`. */
  lemma {:induction false} PopOrderExtendCons(m: multiset<Result>, h: Result, t: seq<Result>, r: Result)
    requires PopOrder(m, [h] + t)
    requires multiset([h] + t) <= m
    requires IsMin(r, m - multiset([h] + t))
    ensures PopOrder(m, [h] + t + [r])
    decreases |t| + 1, 0
  {
    assert ([h] + t)[0] == h && ([h] + t)[1..] == t;
    MinusCons(m, h, t);
    PopOrderExtend(m - multiset{h}, t, r);
    PopOrderCons(m, h, t + [r]);
    assert [h] + t + [r] == [h] + (t + [r]);
  }

  /** Results of equal priority may come out in either order: ties have no defined order. */
  lemma TiesUnordered(a: Result, b: Result)
    requires Same(a, b)
    ensures PopOrder(multiset{a, b}, [a, b])
    ensures PopOrder(multiset{a, b}, [b, a])
  {
    assert multiset{a, b} - multiset{a} == multiset{b};
    assert multiset{a, b} - multiset{b} == multiset{a};
    assert [a, b][1..] == [b] && [b, a][1..] == [a];
    assert PopOrder(multiset{b} - multiset{b}, []);
    assert PopOrder(multiset{a} - multiset{a}, []);
  }
}
