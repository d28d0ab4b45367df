/**
 * The probability model of the combat engine: a short list of weighted
 * pairs describing the possible numeric outcomes of a random action.
 * Weights are relative magnitudes and need not sum to one. They are `real`
 * here; the source keeps them in 64-bit floats.
 */
module Distributions {
  import opened Wrappers

  /** One possible outcome `value` with its relative `weight`; the source keeps it as a `(f64, i32)` pair. */
  datatype Entry = Entry(weight: real, value: int)

  datatype Distribution = Distribution(pairs: seq<Entry>)

  /** Sum of the weights of the entries whose value is `v`: the distribution read as a weight map. */
  function WeightOf(ps: seq<Entry>, v: int): real
  {
    if ps == [] then 0.0
    else WeightOf(ps[..|ps| - 1], v) + (if ps[|ps| - 1].value == v then ps[|ps| - 1].weight else 0.0)
  }

  /** Sum of all weights. */
  function Total(ps: seq<Entry>): real
  {
    if ps == [] then 0.0 else Total(ps[..|ps| - 1]) + ps[|ps| - 1].weight
  }

  /** The outcome values, in entry order. */
  function Values(ps: seq<Entry>): seq<int>
  {
    seq(|ps|, i requires 0 <= i < |ps| => ps[i].value)
  }

  /** No value occurs in two entries. */
  predicate UniqueValues(ps: seq<Entry>)
  {
    forall i, j :: 0 <= i < j < |ps| ==> ps[i].value != ps[j].value
  }

  /** One weight multiplied by `factor`, as `pair.0 *= other` does. */
  function ScaleWeight(weight: real, factor: real): real
  {
    weight * factor
  }

  /** Every weight multiplied by `factor`, values and order kept. */
  function Scaled(ps: seq<Entry>, factor: real): seq<Entry>
  {
    seq(|ps|, i requires 0 <= i < |ps| => Entry(ScaleWeight(ps[i].weight, factor), ps[i].value))
  }

  /** The position of the first entry with value `v`, as `iter_mut().find` locates it. */
  function FirstIndex(ps: seq<Entry>, v: int): (r: Option<nat>)
    ensures r.Some? ==> r.value < |ps| && ps[r.value].value == v
    ensures r.Some? ==> forall j :: 0 <= j < r.value ==> ps[j].value != v
    ensures r.None? <==> v !in Values(ps)
  {
    if ps == [] then None
    else if ps[0].value == v then (assert Values(ps)[0] == v; Some(0))
    else match FirstIndex(ps[1..], v)
      case None => (assert Values(ps) == [ps[0].value] + Values(ps[1..]); None)
      case Some(j) => (assert Values(ps)[j + 1] == v; Some(j + 1))
  }

  lemma FirstIndexIs(ps: seq<Entry>, v: int, j: nat)
    requires j < |ps| && ps[j].value == v
    requires forall k :: 0 <= k < j ==> ps[k].value != v
    ensures FirstIndex(ps, v) == Some(j)
  {
    var r := FirstIndex(ps, v);
    assert Values(ps)[j] == v;
  }

  /** One entry merged in: its weight is added to the first entry with the same value, or it is appended. */
  function Added(ps: seq<Entry>, e: Entry): seq<Entry>
  {
    match FirstIndex(ps, e.value)
    case Some(j) => ps[j := Entry(ps[j].weight + e.weight, ps[j].value)]
    case None => ps + [e]
  }

  /** The entries of `other` merged into `ps` one by one, front to back. */
  function Merged(ps: seq<Entry>, other: seq<Entry>): seq<Entry>
    decreases |other|
  {
    if other == [] then ps else Merged(Added(ps, other[0]), other[1..])
  }

  /** The values of `other` not in `seen`, each once, in order of first occurrence. */
  function NewValues(seen: seq<int>, other: seq<Entry>): seq<int>
    decreases |other|
  {
    if other == [] then []
    else if other[0].value in seen then NewValues(seen, other[1..])
    else [other[0].value] + NewValues(seen + [other[0].value], other[1..])
  }

  /** `Distribution::new`: no outcome at all. */
  function New(): (d: Distribution)
    ensures forall v :: WeightOf(d.pairs, v) == 0.0
    ensures Total(d.pairs) == 0.0 && Values(d.pairs) == []
  {
    Distribution([])
  }

  /** `Distribution::from(value)`: the certain outcome `value`. */
  function FromValue(value: int): (d: Distribution)
    ensures Values(d.pairs) == [value]
    ensures WeightOf(d.pairs, value) == 1.0 && Total(d.pairs) == 1.0
    ensures forall v :: v != value ==> WeightOf(d.pairs, v) == 0.0
  {
    var ps := [Entry(1.0, value)];
    assert ps[..0] == [];
    Distribution(ps)
  }

  /** `d * factor`: scales every weight in place. */
  method Mul(d: Distribution, factor: real) returns (r: Distribution)
    ensures |r.pairs| == |d.pairs|
    ensures forall k :: 0 <= k < |d.pairs| ==> r.pairs[k] == Entry(ScaleWeight(d.pairs[k].weight, factor), d.pairs[k].value)
    ensures Values(r.pairs) == Values(d.pairs)
    ensures forall v :: WeightOf(r.pairs, v) == ScaleWeight(WeightOf(d.pairs, v), factor)
    ensures Total(r.pairs) == ScaleWeight(Total(d.pairs), factor)
  {
    var ps := d.pairs;
    var i := 0;
    while i < |ps|
      invariant 0 <= i <= |ps| == |d.pairs|
      invariant forall k :: 0 <= k < i ==> ps[k] == Entry(ScaleWeight(d.pairs[k].weight, factor), d.pairs[k].value)
      invariant forall k :: i <= k < |ps| ==> ps[k] == d.pairs[k]
    {
      ps := ps[i := Entry(ScaleWeight(ps[i].weight, factor), ps[i].value)];
      i := i + 1;
    }
    r := Distribution(ps);
    assert ps == Scaled(d.pairs, factor);
    forall v ensures WeightOf(r.pairs, v) == ScaleWeight(WeightOf(d.pairs, v), factor) {
      ScaledWeight(d.pairs, factor, v);
    }
    ScaledTotal(d.pairs, factor);
  }

  /** `iter_mut().find(..)`: the position of the first entry with value `v`, or `|ps|` when there is none. */
  method FindValue(ps: seq<Entry>, v: int) returns (j: nat)
    ensures j <= |ps|
    ensures j < |ps| ==> FirstIndex(ps, v) == Some(j)
    ensures j == |ps| ==> FirstIndex(ps, v) == None
  {
    j := 0;
    while j < |ps| && ps[j].value != v
      invariant j <= |ps|
      invariant forall k :: 0 <= k < j ==> ps[k].value != v
    {
      j := j + 1;
    }
    if j < |ps| {
      FirstIndexIs(ps, v, j);
    } else {
      assert v !in Values(ps);
    }
  }

  /** One pass of the `+=` loop: the entry's weight goes to the first entry with its value, or the entry is pushed. */
  method AddEntry(ps: seq<Entry>, e: Entry) returns (r: seq<Entry>)
    ensures r == Added(ps, e)
  {
    var j := FindValue(ps, e.value);
    if j < |ps| {
      r := ps[j := Entry(ps[j].weight + e.weight, ps[j].value)];
    } else {
      r := ps + [e];
    }
  }

  /** `self += other`: each entry of `other` is merged into `self` in turn. */
  method AddAssign(self: Distribution, other: Distribution) returns (r: Distribution)
    ensures r.pairs == Merged(self.pairs, other.pairs)
    ensures forall v :: WeightOf(r.pairs, v) == WeightOf(self.pairs, v) + WeightOf(other.pairs, v)
    ensures Total(r.pairs) == Total(self.pairs) + Total(other.pairs)
    ensures Values(r.pairs) == Values(self.pairs) + NewValues(Values(self.pairs), other.pairs)
    ensures UniqueValues(self.pairs) ==> UniqueValues(r.pairs)
  {
    var ps := self.pairs;
    var i := 0;
    while i < |other.pairs|
      invariant 0 <= i <= |other.pairs|
      invariant Merged(ps, other.pairs[i..]) == Merged(self.pairs, other.pairs)
    {
      ps := AddEntry(ps, other.pairs[i]);
      assert other.pairs[i..][1..] == other.pairs[i + 1..];
      i := i + 1;
    }
    r := Distribution(ps);
    MergedFacts(self.pairs, other.pairs);
  }

  /** `self + other`, built on `+=`. */
  method Add(self: Distribution, other: Distribution) returns (r: Distribution)
    ensures forall v :: WeightOf(r.pairs, v) == WeightOf(self.pairs, v) + WeightOf(other.pairs, v)
    ensures Total(r.pairs) == Total(self.pairs) + Total(other.pairs)
    ensures Values(r.pairs) == Values(self.pairs) + NewValues(Values(self.pairs), other.pairs)
    ensures UniqueValues(self.pairs) ==> UniqueValues(r.pairs)
  {
    r := AddAssign(self, other);
  }

  /**
   * `Distribution::split(p, then, else)`: `then` taken with probability `p`
   * and `else` otherwise, each value's weight the weighted sum of its two weights.
   */
  method Split(probability: real, thenValue: Distribution, elseValue: Distribution) returns (r: Distribution)
    ensures r.pairs == Merged(Scaled(thenValue.pairs, probability), Scaled(elseValue.pairs, 1.0 - probability))
    ensures forall v :: (WeightOf(r.pairs, v) ==
      ScaleWeight(WeightOf(thenValue.pairs, v), probability) + ScaleWeight(WeightOf(elseValue.pairs, v), 1.0 - probability))
    ensures Total(r.pairs) == ScaleWeight(Total(thenValue.pairs), probability) + ScaleWeight(Total(elseValue.pairs), 1.0 - probability)
  {
    var a := Mul(thenValue, probability);
    var b := Mul(elseValue, 1.0 - probability);
    assert a.pairs == Scaled(thenValue.pairs, probability);
    assert b.pairs == Scaled(elseValue.pairs, 1.0 - probability);
    r := AddAssign(a, b);
  }

  // ---------------------------------------------------------------------------
  // Lemmas about the weight map

  lemma {:induction false} ScaledWeight(ps: seq<Entry>, factor: real, v: int)
    ensures WeightOf(Scaled(ps, factor), v) == ScaleWeight(WeightOf(ps, v), factor)
    decreases |ps|
  {
    if ps != [] {
      var n := |ps| - 1;
      assert Scaled(ps, factor)[..n] == Scaled(ps[..n], factor);
      ScaledWeight(ps[..n], factor, v);
    }
  }

  lemma {:induction false} ScaledTotal(ps: seq<Entry>, factor: real)
    ensures Total(Scaled(ps, factor)) == ScaleWeight(Total(ps), factor)
    decreases |ps|
  {
    if ps != [] {
      var n := |ps| - 1;
      assert Scaled(ps, factor)[..n] == Scaled(ps[..n], factor);
      ScaledTotal(ps[..n], factor);
    }
  }

  lemma {:induction false} WeightOfAppend(xs: seq<Entry>, ys: seq<Entry>, v: int)
    ensures WeightOf(xs + ys, v) == WeightOf(xs, v) + WeightOf(ys, v)
    decreases |ys|
  {
    if ys != [] {
      var n := |ys| - 1;
      assert (xs + ys)[..|xs + ys| - 1] == xs + ys[..n];
      WeightOfAppend(xs, ys[..n], v);
    } else {
      assert xs + ys == xs;
    }
  }

  lemma {:induction false} TotalAppend(xs: seq<Entry>, ys: seq<Entry>)
    ensures Total(xs + ys) == Total(xs) + Total(ys)
    decreases |ys|
  {
    if ys != [] {
      var n := |ys| - 1;
      assert (xs + ys)[..|xs + ys| - 1] == xs + ys[..n];
      TotalAppend(xs, ys[..n]);
    } else {
      assert xs + ys == xs;
    }
  }

  /** Adding `w` to the weight of entry `j` adds `w` to that entry's value and nothing else. */
  lemma {:induction false} WeightOfBump(ps: seq<Entry>, j: nat, w: real, v: int)
    requires j < |ps|
    ensures WeightOf(ps[j := Entry(ps[j].weight + w, ps[j].value)], v) == WeightOf(ps, v) + (if ps[j].value == v then w else 0.0)
    decreases |ps|
  {
    var qs := ps[j := Entry(ps[j].weight + w, ps[j].value)];
    var n := |ps| - 1;
    if j < n {
      assert qs[..n] == ps[..n][j := Entry(ps[j].weight + w, ps[j].value)];
      WeightOfBump(ps[..n], j, w, v);
    } else {
      assert qs[..n] == ps[..n];
    }
  }

  lemma {:induction false} TotalBump(ps: seq<Entry>, j: nat, w: real)
    requires j < |ps|
    ensures Total(ps[j := Entry(ps[j].weight + w, ps[j].value)]) == Total(ps) + w
    decreases |ps|
  {
    var qs := ps[j := Entry(ps[j].weight + w, ps[j].value)];
    var n := |ps| - 1;
    if j < n {
      assert qs[..n] == ps[..n][j := Entry(ps[j].weight + w, ps[j].value)];
      TotalBump(ps[..n], j, w);
    } else {
      assert qs[..n] == ps[..n];
    }
  }

  lemma AddedWeight(ps: seq<Entry>, e: Entry, v: int)
    ensures WeightOf(Added(ps, e), v) == WeightOf(ps, v) + (if e.value == v then e.weight else 0.0)
  {
    match FirstIndex(ps, e.value)
    case Some(j) => WeightOfBump(ps, j, e.weight, v);
    case None => WeightOfAppend(ps, [e], v);
  }

  /** For every value, the merged weight is the sum of its weights in both operands. */
  lemma {:induction false} MergedWeight(ps: seq<Entry>, other: seq<Entry>, v: int)
    ensures WeightOf(Merged(ps, other), v) == WeightOf(ps, v) + WeightOf(other, v)
    decreases |other|
  {
    if other != [] {
      MergedWeight(Added(ps, other[0]), other[1..], v);
      AddedWeight(ps, other[0], v);
      assert other == [other[0]] + other[1..];
      WeightOfAppend([other[0]], other[1..], v);
      assert [other[0]][..0] == [];
    }
  }

  /** Merging one entry adds its weight to the total. */
  lemma AddedTotal(ps: seq<Entry>, e: Entry)
    ensures Total(Added(ps, e)) == Total(ps) + e.weight
  {
    match FirstIndex(ps, e.value) {
      case Some(j) => TotalBump(ps, j, e.weight);
      case None =>
        TotalAppend(ps, [e]);
        assert [e][..0] == [];
    }
  }

  /** The total of a list is its first weight plus the total of the rest. */
  lemma TotalFirst(ps: seq<Entry>)
    requires ps != []
    ensures Total(ps) == ps[0].weight + Total(ps[1..])
  {
    assert ps == [ps[0]] + ps[1..];
    TotalAppend([ps[0]], ps[1..]);
    assert [ps[0]][..0] == [];
  }

  /** Merging adds the totals. */
  lemma {:induction false} MergedTotal(ps: seq<Entry>, other: seq<Entry>)
    ensures Total(Merged(ps, other)) == Total(ps) + Total(other)
    decreases |other|
  {
    if other != [] {
      MergedTotal(Added(ps, other[0]), other[1..]);
      AddedTotal(ps, other[0]);
      TotalFirst(other);
    }
  }

  lemma AddedValues(ps: seq<Entry>, e: Entry)
    ensures Values(Added(ps, e)) == Values(ps) + (if e.value in Values(ps) then [] else [e.value])
  {
    match FirstIndex(ps, e.value)
    case Some(j) =>
      assert Values(Added(ps, e)) == Values(ps);
    case None =>
      assert Values(ps + [e]) == Values(ps) + [e.value];
  }

  /** Existing entries keep their positions; values not seen before are appended in first-occurrence order. */
  lemma {:induction false} MergedValues(ps: seq<Entry>, other: seq<Entry>)
    ensures Values(Merged(ps, other)) == Values(ps) + NewValues(Values(ps), other)
    decreases |other|
  {
    if other != [] {
      var e := other[0];
      AddedValues(ps, e);
      MergedValues(Added(ps, e), other[1..]);
      if e.value in Values(ps) {
        assert Values(Added(ps, e)) == Values(ps);
        assert NewValues(Values(ps), other) == NewValues(Values(ps), other[1..]);
      } else {
        assert NewValues(Values(ps), other) == [e.value] + NewValues(Values(ps) + [e.value], other[1..]);
      }
    }
  }

  /** The four properties of a merge, gathered for its callers. */
  lemma MergedFacts(ps: seq<Entry>, other: seq<Entry>)
    ensures forall v :: WeightOf(Merged(ps, other), v) == WeightOf(ps, v) + WeightOf(other, v)
    ensures Total(Merged(ps, other)) == Total(ps) + Total(other)
    ensures Values(Merged(ps, other)) == Values(ps) + NewValues(Values(ps), other)
    ensures UniqueValues(ps) ==> UniqueValues(Merged(ps, other))
  {
    forall v ensures WeightOf(Merged(ps, other), v) == WeightOf(ps, v) + WeightOf(other, v) {
      MergedWeight(ps, other, v);
    }
    MergedTotal(ps, other);
    MergedValues(ps, other);
    if UniqueValues(ps) {
      MergedUnique(ps, other);
    }
  }

  lemma AddedUnique(ps: seq<Entry>, e: Entry)
    requires UniqueValues(ps)
    ensures UniqueValues(Added(ps, e))
  {
    match FirstIndex(ps, e.value)
    case Some(j) =>
    case None =>
      var qs := ps + [e];
      forall i, k | 0 <= i < k < |qs| ensures qs[i].value != qs[k].value {
        if k == |ps| {
          assert Values(ps)[i] == ps[i].value;
        }
      }
  }

  /** Values that were unique stay unique after a merge. */
  lemma {:induction false} MergedUnique(ps: seq<Entry>, other: seq<Entry>)
    requires UniqueValues(ps)
    ensures UniqueValues(Merged(ps, other))
    decreases |other|
  {
    if other != [] {
      AddedUnique(ps, other[0]);
      MergedUnique(Added(ps, other[0]), other[1..]);
    }
  }
}
