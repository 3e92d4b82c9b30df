/**
 * Greedy packing of instructions into transactions. The size of a compiled transaction is a
 * parameter: any function of the instruction list (a list that fails to compile counts as too big).
 */
module Packer {
  const MAX_TX_BYTES: nat := 1232

  datatype Batch<T, I> = Batch(instructions: seq<I>, items: seq<T>)

  function Max(a: int, b: int): int {
    if a >= b then a else b
  }

  function Instructions<T, I>(items: seq<T>, ix: T -> I): seq<I> {
    seq(|items|, i requires 0 <= i < |items| => ix(items[i]))
  }

  function Flatten<A>(parts: seq<seq<A>>): seq<A> {
    if |parts| == 0 then [] else parts[0] + Flatten(parts[1..])
  }

  predicate Fits<I>(size: seq<I> -> nat, instructions: seq<I>) {
    size(instructions) <= MAX_TX_BYTES
  }

  // --- Greedy packing as a function ---------------------------------------------------------------

  /** How far a batch reaches: up to the first item that no longer fits. */
  function Reach<T, I>(items: seq<T>, ix: T -> I, size: seq<I> -> nat, prefix: seq<I>, from: nat): (k: nat)
    requires from <= |items|
    ensures from <= k <= |items|
    decreases |items| - from
  {
    if from < |items| && Fits(size, prefix + Instructions(items[..from + 1], ix))
    then Reach(items, ix, size, prefix, from + 1) else from
  }

  /** A batch of that length fits, and one item more would not. */
  lemma {:induction false} ReachIsMaximal<T, I>(items: seq<T>, ix: T -> I, size: seq<I> -> nat,
                                                prefix: seq<I>, from: nat)
    requires from <= |items|
    ensures var k := Reach(items, ix, size, prefix, from);
            (k > from ==> Fits(size, prefix + Instructions(items[..k], ix))) &&
            (k < |items| ==> !Fits(size, prefix + Instructions(items[..k + 1], ix)))
    decreases |items| - from
  {
    if from < |items| && Fits(size, prefix + Instructions(items[..from + 1], ix)) {
      ReachIsMaximal(items, ix, size, prefix, from + 1);
    }
  }

  function FirstBatch<T, I>(items: seq<T>, ix: T -> I, size: seq<I> -> nat, prefix: seq<I>): (k: nat)
    requires items != []
    ensures 1 <= k <= |items|
  {
    Max(Reach(items, ix, size, prefix, 0), 1)
  }

  function Greedy<T, I>(items: seq<T>, ix: T -> I, size: seq<I> -> nat, prefix: seq<I>): seq<seq<T>> {
    if items == [] then []
    else
      var k := FirstBatch(items, ix, size, prefix);
      [items[..k]] + Greedy(items[k..], ix, size, [])
  }

  /** The batch a part of the items becomes: only the first carries the prefix. */
  function Batches<T, I>(parts: seq<seq<T>>, ix: T -> I, prefix: seq<I>): (r: seq<Batch<T, I>>)
    ensures |r| == |parts|
    ensures forall j | 0 <= j < |r| ::
              r[j] == Batch((if j == 0 then prefix else []) + Instructions(parts[j], ix), parts[j])
  {
    seq(|parts|, j requires 0 <= j < |parts| =>
      Batch((if j == 0 then prefix else []) + Instructions(parts[j], ix), parts[j]))
  }

  lemma GreedyStep<T, I>(parts: seq<seq<T>>, items: seq<T>, ix: T -> I, size: seq<I> -> nat, prefix: seq<I>)
    requires items != []
    ensures var k := FirstBatch(items, ix, size, prefix);
            parts + Greedy(items, ix, size, prefix) == parts + [items[..k]] + Greedy(items[k..], ix, size, [])
  {
  }

  lemma BatchesStep<T, I>(parts: seq<seq<T>>, part: seq<T>, ix: T -> I, prefix: seq<I>)
    ensures Batches(parts + [part], ix, prefix)
         == Batches(parts, ix, prefix) + [Batch((if parts == [] then prefix else []) + Instructions(part, ix), part)]
  {
  }

  function Itself<I>(x: I): I {
    x
  }

  // --- The packing loops ------------------------------------------------------------------------------

  /** The two nested loops compute exactly the greedy partition, and no items still means one prefix batch. */
  method PackInstructionBatchesWithItems<T, I>(items: seq<T>, ix: T -> I, size: seq<I> -> nat, prefixIxs: seq<I>)
    returns (batches: seq<Batch<T, I>>)
    ensures items == [] ==> batches == if prefixIxs == [] then [] else [Batch(prefixIxs, [])]
    ensures items != [] ==> batches == Batches(Greedy(items, ix, size, prefixIxs), ix, prefixIxs)
  {
    if |items| == 0 {
      return if |prefixIxs| > 0 then [Batch(prefixIxs, [])] else [];
    }
    hide Greedy;
    hide Batches;
    hide Instructions;
    batches := [];
    var cursor := 0;
    var isFirst := true;
    ghost var parts: seq<seq<T>> := [];
    while cursor < |items|
      invariant 0 <= cursor <= |items|
      invariant isFirst <==> parts == []
      invariant batches == Batches<T, I>(parts, ix, prefixIxs)
      invariant parts + Greedy(items[cursor..], ix, size, if isFirst then prefixIxs else [])
             == Greedy(items, ix, size, prefixIxs)
    {
      var prefix := if isFirst then prefixIxs else [];
      ghost var rest := items[cursor..];
      var count := 0;
      for i := cursor to |items|
        invariant count == i - cursor
        invariant Reach(rest, ix, size, prefix, 0) == Reach(rest, ix, size, prefix, count)
      {
        assert items[cursor..i + 1] == rest[..count + 1];
        var candidate := prefix + Instructions(items[cursor..i + 1], ix);
        if size(candidate) > MAX_TX_BYTES { break; }
        count := i - cursor + 1;
      }
      assert Reach(rest, ix, size, prefix, 0) == count;
      var batchItems := items[cursor..cursor + Max(count, 1)];
      assert batchItems == rest[..FirstBatch(rest, ix, size, prefix)];
      GreedyStep(parts, rest, ix, size, prefix);
      BatchesStep(parts, batchItems, ix, prefixIxs);
      batches := batches + [Batch(prefix + Instructions(batchItems, ix), batchItems)];
      assert items[cursor + |batchItems|..] == rest[|batchItems|..];
      parts := parts + [batchItems];
      cursor := cursor + |batchItems|;
      isFirst := false;
    }
  }

  /** Without items, the same batches as plain instruction lists; together they are the input, in order. */
  method PackInstructionBatches<I>(ixs: seq<I>, size: seq<I> -> nat, prefixIxs: seq<I>) returns (r: seq<seq<I>>)
    ensures Flatten(r) == prefixIxs + ixs
    ensures prefixIxs == [] ==> r == Greedy(ixs, Itself, size, [])
  {
    var batches := PackInstructionBatchesWithItems(ixs, Itself, size, prefixIxs);
    r := seq(|batches|, j requires 0 <= j < |batches| => batches[j].instructions);
    if ixs == [] {
      assert prefixIxs != [] ==> r == [prefixIxs];
    } else {
      GreedyKeepsItems(ixs, Itself, size, prefixIxs);
      PlainBatches(Greedy(ixs, Itself, size, prefixIxs), prefixIxs, r);
    }
  }

  lemma PlainBatches<I>(parts: seq<seq<I>>, prefix: seq<I>, r: seq<seq<I>>)
    requires |r| == |parts| > 0
    requires forall j | 0 <= j < |r| :: r[j] == Batches(parts, Itself, prefix)[j].instructions
    ensures Flatten(r) == prefix + Flatten(parts)
    ensures prefix == [] ==> r == parts
  {
    hide Flatten;
    forall j | 0 <= j < |parts| ensures r[j] == if j == 0 then prefix + parts[0] else parts[j] {
      PlainBatch(parts, prefix, j);
    }
    FlattenWithPrefix(prefix, parts, r);
  }

  lemma PlainBatch<I>(parts: seq<seq<I>>, prefix: seq<I>, j: nat)
    requires j < |parts|
    ensures Batches(parts, Itself, prefix)[j].instructions == if j == 0 then prefix + parts[0] else parts[j]
  {
    assert Instructions(parts[j], Itself) == parts[j];
  }

  lemma FlattenWithPrefix<A>(prefix: seq<A>, parts: seq<seq<A>>, r: seq<seq<A>>)
    requires |r| == |parts| > 0
    requires r[0] == prefix + parts[0] && forall j | 0 < j < |r| :: r[j] == parts[j]
    ensures Flatten(r) == prefix + Flatten(parts)
  {
    assert r[1..] == parts[1..];
  }

  // --- What greedy packing guarantees -----------------------------------------------------------------

  /** Nothing is lost, repeated or reordered. */
  lemma {:induction false} GreedyKeepsItems<T, I>(items: seq<T>, ix: T -> I, size: seq<I> -> nat, prefix: seq<I>)
    ensures Flatten(Greedy(items, ix, size, prefix)) == items
    ensures items != [] ==> Greedy(items, ix, size, prefix) != []
  {
    if items != [] {
      var k := FirstBatch(items, ix, size, prefix);
      GreedyKeepsItems(items[k..], ix, size, []);
      var parts := Greedy(items, ix, size, prefix);
      assert parts[0] == items[..k] && parts[1..] == Greedy(items[k..], ix, size, []);
    }
  }

  /** Every batch is non-empty, and one that does not fit holds a single item, behind the prefix if it is the first. */
  lemma {:induction false} GreedyBatchesFit<T, I>(items: seq<T>, ix: T -> I, size: seq<I> -> nat,
                                                  prefix: seq<I>, j: nat)
    requires j < |Greedy(items, ix, size, prefix)|
    ensures var b := Batches(Greedy(items, ix, size, prefix), ix, prefix)[j];
            b.items != [] && (size(b.instructions) <= 1232 || |b.items| == 1)
  {
    var k := FirstBatch(items, ix, size, prefix);
    ReachIsMaximal(items, ix, size, prefix, 0);
    if j > 0 {
      GreedyBatchesFit(items[k..], ix, size, [], j - 1);
      assert Greedy(items, ix, size, prefix)[j] == Greedy(items[k..], ix, size, [])[j - 1];
    }
  }

  /** Batches are maximal: the first item of the next one would not have fitted. */
  lemma {:induction false} GreedyBatchesAreFull<T, I>(items: seq<T>, ix: T -> I, size: seq<I> -> nat,
                                                      prefix: seq<I>, j: nat)
    requires j + 1 < |Greedy(items, ix, size, prefix)|
    ensures var parts := Greedy(items, ix, size, prefix);
            parts[j + 1] != [] && (1232 < size(Batches(parts, ix, prefix)[j].instructions) ||
            1232 < size(Batches(parts, ix, prefix)[j].instructions + [ix(parts[j + 1][0])]))
  {
    var k := FirstBatch(items, ix, size, prefix);
    var parts := Greedy(items, ix, size, prefix);
    ReachIsMaximal(items, ix, size, prefix, 0);
    if j > 0 {
      GreedyBatchesAreFull(items[k..], ix, size, [], j - 1);
      assert parts[1..] == Greedy(items[k..], ix, size, []);
      assert parts[j] == parts[1..][j - 1] && parts[j + 1] == parts[1..][j];
    } else {
      assert parts[1] == Greedy(items[k..], ix, size, [])[0];
      assert parts[1][0] == items[k];
      var reach := Reach(items, ix, size, prefix, 0);
      if reach >= 1 {
        assert prefix + Instructions(items[..k + 1], ix)
            == prefix + Instructions(items[..k], ix) + [ix(items[k])];
      } else {
        assert !Fits(size, prefix + Instructions(items[..1], ix));
      }
    }
  }

  // --- When every batch can be sent ---------------------------------------------------------------------

  /** Whatever fits still fits with instructions left out at either end. */
  ghost predicate Monotone<I(!new)>(size: seq<I> -> nat) {
    forall a: seq<I>, xs: seq<I>, b: seq<I> :: Fits(size, a + xs + b) ==> Fits(size, xs)
  }

  predicate AllFit<T, I>(items: seq<T>, ix: T -> I, size: seq<I> -> nat, prefix: seq<I>) {
    var batches := Batches(Greedy(items, ix, size, prefix), ix, prefix);
    forall j | 0 <= j < |batches| :: Fits(size, batches[j].instructions)
  }

  /** The first item fits behind the prefix, and every other item fits alone. */
  predicate EachFitsAlone<T, I>(items: seq<T>, ix: T -> I, size: seq<I> -> nat, prefix: seq<I>)
    requires items != []
  {
    Fits(size, prefix + [ix(items[0])]) && forall i | 0 < i < |items| :: Fits(size, [ix(items[i])])
  }

  lemma OneFits<I(!new)>(instructions: seq<I>, i: nat, size: seq<I> -> nat)
    requires Monotone(size) && i < |instructions| && Fits(size, instructions)
    ensures Fits(size, [instructions[i]])
  {
    assert instructions == instructions[..i] + [instructions[i]] + instructions[i + 1..];
  }

  lemma AllFitStep<T, I>(items: seq<T>, ix: T -> I, size: seq<I> -> nat, prefix: seq<I>)
    requires items != []
    ensures var k := FirstBatch(items, ix, size, prefix);
            (AllFit(items, ix, size, prefix) <==>
             Fits(size, prefix + Instructions(items[..k], ix)) && AllFit(items[k..], ix, size, []))
  {
    var k := FirstBatch(items, ix, size, prefix);
    var batches := Batches(Greedy(items, ix, size, prefix), ix, prefix);
    var rest := Batches(Greedy(items[k..], ix, size, []), ix, []);
    assert batches[0].instructions == prefix + Instructions(items[..k], ix);
    assert forall j | 0 <= j < |rest| :: batches[j + 1] == rest[j];
    assert forall j | 0 < j < |batches| :: batches[j] == rest[j - 1];
  }

  /** The first batch fits exactly when its first item fits behind the prefix, and then its other items fit alone. */
  lemma FirstBatchFits<T, I(!new)>(items: seq<T>, ix: T -> I, size: seq<I> -> nat, prefix: seq<I>)
    requires Monotone(size) && items != []
    ensures var k := FirstBatch(items, ix, size, prefix);
            var fits := Fits(size, prefix + Instructions(items[..k], ix));
            (fits <==> Fits(size, prefix + [ix(items[0])])) &&
            (fits ==> forall i | 0 < i < k :: Fits(size, [ix(items[i])]))
  {
    var k := FirstBatch(items, ix, size, prefix);
    var batch := prefix + Instructions(items[..k], ix);
    ReachIsMaximal(items, ix, size, prefix, 0);
    assert Instructions(items[..1], ix) == [ix(items[0])];
    if Fits(size, batch) {
      assert batch == [] + (prefix + [ix(items[0])]) + Instructions(items[1..k], ix);
      forall i | 0 < i < k ensures Fits(size, [ix(items[i])]) {
        OneFits(batch, |prefix| + i, size);
      }
    }
  }

  /** Every batch can be sent if and only if the first item fits behind the prefix and every other item alone. */
  lemma {:induction false} AllFitExactlyWhen<T, I(!new)>(items: seq<T>, ix: T -> I, size: seq<I> -> nat,
                                                         prefix: seq<I>)
    requires Monotone(size) && items != []
    ensures AllFit(items, ix, size, prefix) <==> EachFitsAlone(items, ix, size, prefix)
    decreases |items|
  {
    hide Greedy;
    hide AllFit;
    var k := FirstBatch(items, ix, size, prefix);
    var rest := items[k..];
    AllFitStep(items, ix, size, prefix);
    FirstBatchFits(items, ix, size, prefix);
    if rest == [] {
      NothingFits(ix, size);
    } else {
      AllFitExactlyWhen(rest, ix, size, []);
      assert [] + [ix(rest[0])] == [ix(items[k])];
      assert forall i | k < i < |items| :: items[i] == rest[i - k];
      assert forall i | 0 < i < |rest| :: rest[i] == items[i + k];
    }
  }

  lemma NothingFits<T, I>(ix: T -> I, size: seq<I> -> nat)
    ensures AllFit([], ix, size, [])
  {
  }

  /** Seven hundred bytes an instruction. */
  function Flat(instructions: seq<int>): nat {
    700 * |instructions|
  }

  /** Prefix and item each fit alone, yet the only batch holds both and cannot be sent. */
  lemma PrefixCanOverflowABatch()
    ensures Monotone(Flat) && Fits(Flat, [1]) && Fits(Flat, [2])
    ensures Greedy([2], Itself, Flat, [1]) == [[2]] && !AllFit([2], Itself, Flat, [1])
  {
    var items, prefix := [2], [1];
    assert FirstBatch(items, Itself, Flat, prefix) == 1;
    assert items[..1] == items && items[1..] == [];
    assert Greedy(items, Itself, Flat, prefix) == [items];
    assert !Fits(Flat, prefix + [Itself(items[0])]);
    AllFitExactlyWhen(items, Itself, Flat, prefix);
  }

  // --- Optimality ---------------------------------------------------------------------------------------

  /** Any way to cut the items into consecutive transactions; an oversize item may stand alone. */
  ghost predicate Feasible<T, I>(items: seq<T>, parts: seq<seq<T>>, ix: T -> I, size: seq<I> -> nat, prefix: seq<I>) {
    Flatten(parts) == items &&
    forall j | 0 <= j < |parts| :: Fits(size, Batches(parts, ix, prefix)[j].instructions) || |parts[j]| <= 1
  }

  /** A sub-range of a fitting range fits. */
  lemma SubrangeFits<T, I(!new)>(p: seq<T>, from: nat, to: nat, ix: T -> I, size: seq<I> -> nat, prefix: seq<I>)
    requires Monotone(size) && from <= to <= |p| && (from > 0 ==> prefix == [])
    requires Fits(size, prefix + Instructions(p, ix))
    ensures Fits(size, prefix + Instructions(p[from..to], ix))
  {
    var a, xs, b := Instructions(p[..from], ix), prefix + Instructions(p[from..to], ix), Instructions(p[to..], ix);
    assert prefix + Instructions(p, ix) == a + xs + b;
  }

  /** Starting anywhere inside a feasible part, the next greedy batch reaches at least its end. */
  lemma ReachesPartEnd<T, I(!new)>(items: seq<T>, p: seq<T>, from: nat, ix: T -> I, size: seq<I> -> nat, prefix: seq<I>)
    requires Monotone(size) && from < |items| && p <= items && (from > 0 ==> prefix == [])
    requires Fits(size, prefix + Instructions(p, ix)) || |p| <= 1
    ensures from + FirstBatch(items[from..], ix, size, prefix) >= |p|
  {
    var rest := items[from..];
    var k := Reach(rest, ix, size, prefix, 0);
    if from + k < |p| && |p| > 1 {
      ReachIsMaximal(rest, ix, size, prefix, 0);
      assert p[from..from + k + 1] == rest[..k + 1];
      SubrangeFits(p, from, from + k + 1, ix, size, prefix);
    }
  }

  /** Greedy started part-way through a feasible partition needs no more batches than the partition has. */
  lemma {:induction false} GreedyStaysAhead<T, I(!new)>(items: seq<T>, from: nat, parts: seq<seq<T>>, ix: T -> I,
                                                        size: seq<I> -> nat, prefix: seq<I>)
    requires Monotone(size) && from <= |items| && (from > 0 ==> prefix == [])
    requires Feasible(items, parts, ix, size, prefix)
    ensures |Greedy(items[from..], ix, size, prefix)| <= |parts|
    decreases |parts|
  {
    if from < |items| {
      var p, rest := parts[0], parts[1..];
      assert items[|p|..] == Flatten(rest);
      assert Feasible(items[|p|..], rest, ix, size, []) by {
        forall j | 0 <= j < |rest|
          ensures Fits(size, Batches(rest, ix, [])[j].instructions) || |rest[j]| <= 1
        {
          assert rest[j] == parts[j + 1];
          assert Batches(parts, ix, prefix)[j + 1].instructions == [] + Instructions(rest[j], ix);
        }
      }
      assert Batches(parts, ix, prefix)[0].instructions == prefix + Instructions(p, ix);
      ReachesPartEnd(items, p, from, ix, size, prefix);
      if from >= |p| && prefix == [] {
        GreedyStaysAhead(items[|p|..], from - |p|, rest, ix, size, []);
        assert items[from..] == items[|p|..][from - |p|..];
      } else {
        var k := FirstBatch(items[from..], ix, size, prefix);
        GreedyStaysAhead(items[|p|..], from + k - |p|, rest, ix, size, []);
        assert items[from..][k..] == items[|p|..][from + k - |p|..];
      }
    }
  }

  /** No way of cutting the same list, in order, uses fewer transactions. */
  lemma GreedyIsOptimal<T, I(!new)>(items: seq<T>, parts: seq<seq<T>>, ix: T -> I, size: seq<I> -> nat, prefix: seq<I>)
    requires Monotone(size) && Feasible(items, parts, ix, size, prefix)
    ensures |Greedy(items, ix, size, prefix)| <= |parts|
    ensures Feasible(items, Greedy(items, ix, size, prefix), ix, size, prefix)
  {
    GreedyStaysAhead(items, 0, parts, ix, size, prefix);
    assert items[0..] == items;
    GreedyKeepsItems(items, ix, size, prefix);
    var greedy := Greedy(items, ix, size, prefix);
    forall j | 0 <= j < |greedy|
      ensures Fits(size, Batches(greedy, ix, prefix)[j].instructions) || |greedy[j]| <= 1
    {
      GreedyBatchesFit(items, ix, size, prefix, j);
    }
  }
}
