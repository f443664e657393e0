/**
 * MushroomField's genetics: a child's genes are a one-point crossover of
 * two parents' genes followed by a random mutation, and the field culls
 * its least fit mushroom. Random draws are parameters; Unity's test of a
 * destroyed object is the set `destroyed`.
 */
module Mushrooms {
  import opened Wrappers
  import opened Lists
  import opened Enumerables

  // ---------------------------------------------------------------------
  // Crossover

  /**
   * Crossover: the first `crossoverIndex` genes of parent A, the rest of
   * parent B. Unity asserts that the parents have the same length.
   */
  function Crossover<T>(parentA: seq<T>, parentB: seq<T>, crossoverIndex: int): (child: seq<T>)
    requires |parentA| == |parentB| && 0 <= crossoverIndex <= |parentA|
    ensures |child| == |parentA|
    ensures forall i :: 0 <= i < crossoverIndex ==> child[i] == parentA[i]
    ensures forall i :: crossoverIndex <= i < |child| ==> child[i] == parentB[i]
  {
    parentA[..crossoverIndex] + parentB[crossoverIndex..]
  }

  /** A crossover at the start copies parent B, one at the end copies parent A. */
  lemma CrossoverExtremes<T>(parentA: seq<T>, parentB: seq<T>)
    requires |parentA| == |parentB|
    ensures Crossover(parentA, parentB, 0) == parentB
    ensures Crossover(parentA, parentB, |parentA|) == parentA
  {
    assert parentA[..0] + parentB[0..] == parentB;
    assert parentA[..|parentA|] + parentB[|parentA|..] == parentA;
  }

  /** Crossing over both ways at the same point hands each gene of each parent to exactly one child. */
  lemma CrossoverSharesGenes<T>(parentA: seq<T>, parentB: seq<T>, crossoverIndex: int)
    requires |parentA| == |parentB| && 0 <= crossoverIndex <= |parentA|
    ensures var c1, c2 := Crossover(parentA, parentB, crossoverIndex), Crossover(parentB, parentA, crossoverIndex);
      forall i :: 0 <= i < |parentA| ==>
        multiset{c1[i], c2[i]} == multiset{parentA[i], parentB[i]}
  {
  }

  // ---------------------------------------------------------------------
  // Mutation

  /**
   * The genes after Mutate: gene `i` is scaled by `factors[i]` when
   * `values[i]` (Random.value) is below the mutation rate.
   */
  function Mutated(genes: seq<real>, mutationRate: real, values: seq<real>, factors: seq<real>): (r: seq<real>)
    requires |values| >= |genes| && |factors| >= |genes|
    ensures |r| == |genes|
  {
    seq(|genes|, i requires 0 <= i < |genes| => if values[i] < mutationRate then genes[i] * factors[i] else genes[i])
  }

  /** Random.value is in [0, 1] and Random.Range(0.5f, 1.5f) in [0.5, 1.5]. */
  predicate Draws(n: int, values: seq<real>, factors: seq<real>)
  {
    |values| >= n && |factors| >= n &&
    (forall i :: 0 <= i < n ==> 0.0 <= values[i] <= 1.0) &&
    (forall i :: 0 <= i < n ==> 0.5 <= factors[i] <= 1.5)
  }

  function Abs(x: real): real { if x < 0.0 then -x else x }

  /**
   * Every gene is either kept or scaled by a factor between 0.5 and 1.5:
   * it keeps its sign and its size changes by at most half.
   */
  lemma MutationIsBounded(genes: seq<real>, mutationRate: real, values: seq<real>, factors: seq<real>)
    requires Draws(|genes|, values, factors)
    ensures var r := Mutated(genes, mutationRate, values, factors);
      forall i :: 0 <= i < |genes| ==>
        (r[i] == genes[i] || (values[i] < mutationRate && r[i] == genes[i] * factors[i])) &&
        r[i] * genes[i] >= 0.0 && 0.5 * Abs(genes[i]) <= Abs(r[i]) <= 1.5 * Abs(genes[i])
  {
    var r := Mutated(genes, mutationRate, values, factors);
    forall i | 0 <= i < |genes|
      ensures r[i] * genes[i] >= 0.0 && 0.5 * Abs(genes[i]) <= Abs(r[i]) <= 1.5 * Abs(genes[i])
    {
      if values[i] < mutationRate {
        ScaledIsBounded(genes[i], factors[i]);
      }
    }
  }

  lemma ScaledIsBounded(g: real, f: real)
    requires 0.5 <= f <= 1.5
    ensures (g * f) * g >= 0.0 && 0.5 * Abs(g) <= Abs(g * f) <= 1.5 * Abs(g)
  {
    var a := Abs(g);
    assert a >= 0.0;
    assert Abs(g * f) == a * f by {
      if g < 0.0 {
        assert g * f == -(a * f);
      }
    }
    assert a * f - 0.5 * a == a * (f - 0.5) && a * (f - 0.5) >= 0.0;
    assert 1.5 * a - a * f == a * (1.5 - f) && a * (1.5 - f) >= 0.0;
    assert (g * f) * g == (g * g) * f && g * g >= 0.0;
  }

  /** A rate of zero or less never mutates; a rate above one mutates every gene. */
  lemma MutationRateExtremes(genes: seq<real>, mutationRate: real, values: seq<real>, factors: seq<real>)
    requires Draws(|genes|, values, factors)
    ensures mutationRate <= 0.0 ==> Mutated(genes, mutationRate, values, factors) == genes
    ensures mutationRate > 1.0 ==>
      forall i :: 0 <= i < |genes| ==> Mutated(genes, mutationRate, values, factors)[i] == genes[i] * factors[i]
  {
  }

  /** Mutate: every gene in place, in one pass. */
  method Mutate(genes: array<real>, mutationRate: real, values: seq<real>, factors: seq<real>)
    requires |values| >= genes.Length && |factors| >= genes.Length
    modifies genes
    ensures genes[..] == Mutated(old(genes[..]), mutationRate, values, factors)
  {
    ghost var original := genes[..];
    ghost var mutated := Mutated(original, mutationRate, values, factors);
    for i := 0 to genes.Length
      invariant forall j :: 0 <= j < i ==> genes[j] == mutated[j]
      invariant forall j :: i <= j < genes.Length ==> genes[j] == original[j]
    {
      if values[i] < mutationRate {
        genes[i] := genes[i] * factors[i];
      }
    }
    assert genes[..] == mutated;
  }

  // ---------------------------------------------------------------------
  // The field

  /** A mushroom with its genes (ProceduralMushroom's GetGenes and SetGenes). */
  class Mushroom {
    var genes: seq<real>

    constructor(genes: seq<real>)
      ensures this.genes == genes
    {
      this.genes := genes;
    }
  }

  /** `RemoveAll(m => !m)`: the mushrooms Unity has not destroyed, in order. */
  function Living(ms: seq<Mushroom>, destroyed: set<Mushroom>): (r: seq<Mushroom>)
    ensures |r| <= |ms|
    ensures forall i :: 0 <= i < |r| ==> r[i] in ms && r[i] !in destroyed
    ensures forall i :: 0 <= i < |ms| && ms[i] !in destroyed ==> ms[i] in r
  {
    if ms == [] then []
    else
      var rest := Living(ms[..|ms| - 1], destroyed);
      var m := ms[|ms| - 1];
      assert ms == ms[..|ms| - 1] + [m];
      if m in destroyed then rest else rest + [m]
  }

  /**
   * Living is the filter `RemoveAll` performs: it keeps each mushroom on its
   * own exactly when it is not destroyed, and on a list made of two parts it
   * keeps the survivors of the first part, in order, before those of the
   * second.
   */
  lemma {:induction false} LivingFilters(ms: seq<Mushroom>, more: seq<Mushroom>, m: Mushroom, destroyed: set<Mushroom>)
    ensures Living([m], destroyed) == if m in destroyed then [] else [m]
    ensures Living(ms + more, destroyed) == Living(ms, destroyed) + Living(more, destroyed)
    decreases |more|
  {
    assert [m][..0] == [];
    if more == [] {
      assert ms + more == ms;
    } else {
      var init, last := more[..|more| - 1], more[|more| - 1];
      assert (ms + more)[..|ms + more| - 1] == ms + init;
      assert (ms + more)[|ms + more| - 1] == last;
      LivingFilters(ms, init, m, destroyed);
    }
  }

  /** So a survivor list keeps the order and the repeats of the list it came from. */
  lemma LivingKeepsOrder(ms: seq<Mushroom>, i: int, destroyed: set<Mushroom>)
    requires 0 <= i < |ms|
    ensures Living(ms, destroyed) ==
      Living(ms[..i], destroyed) + (if ms[i] in destroyed then [] else [ms[i]]) + Living(ms[i + 1..], destroyed)
  {
    var m, before, after := ms[i], ms[..i], ms[i + 1..];
    assert ms[i..] == [m] + after;
    assert ms == before + ms[i..];
    LivingFilters(before, ms[i..], m, destroyed);
    LivingFilters([m], after, m, destroyed);
  }

  /**
   * The fitness DestroyLeastFitMushroom uses: the smaller genes 5, 6 and 7,
   * the fitter. It is never positive, and it is 0 exactly when all three are 0.
   */
  function Fitness(genes: seq<real>): (f: real)
    requires |genes| >= 8
    ensures f <= 0.0
    ensures f == 0.0 <==> genes[5] == 0.0 && genes[6] == 0.0 && genes[7] == 0.0
  {
    -(Abs(genes[5]) + Abs(genes[6]) + Abs(genes[7]))
  }

  /**
   * `ms[i]` is the first mushroom of least fitness: none is less fit, and
   * every one before it is fitter.
   */
  predicate FirstLeastFit(ms: seq<Mushroom>, i: int)
    reads set m | m in ms
  {
    0 <= i < |ms| && (forall j :: 0 <= j < |ms| ==> |ms[j].genes| >= 8) &&
    (forall j :: 0 <= j < |ms| ==> Fitness(ms[i].genes) <= Fitness(ms[j].genes)) &&
    (forall j :: 0 <= j < i ==> Fitness(ms[j].genes) > Fitness(ms[i].genes))
  }

  /** ArgMin with a selector that agrees with Fitness picks the first least fit mushroom. */
  lemma ArgMinIsLeastFit(ms: seq<Mushroom>, selector: Mushroom -> real)
    requires ms != [] && forall j :: 0 <= j < |ms| ==> |ms[j].genes| >= 8
    requires forall j :: 0 <= j < |ms| ==> selector(ms[j]) == Fitness(ms[j].genes)
    ensures var r := ArgMin(NonNull(ms), selector);
      r.Ok? && r.value.Some? && exists i :: FirstLeastFit(ms, i) && ms[i] == r.value.value
  {
    ArgMinOfNonNull(ms, selector);
  }

  /** The second parent's place in the field: candidate `b` once the first parent's entry is removed. */
  function SecondParent(a: int, b: int): int
  {
    if b < a then b else b + 1
  }

  /** The two parents are different entries of the field. */
  lemma ParentsAreDistinct(count: int, a: int, b: int)
    requires 0 <= a < count && 0 <= b < count - 1
    ensures 0 <= SecondParent(a, b) < count && SecondParent(a, b) != a
  {
  }

  class MushroomField {
    var mushrooms: seq<Mushroom>
    const mutationRate: real

    constructor(mutationRate: real)
      ensures mushrooms == [] && this.mutationRate == mutationRate
    {
      mushrooms := [];
      this.mutationRate := mutationRate;
    }

    /**
     * SetParameters: the destroyed mushrooms leave the list. With genetics
     * off or fewer than two mushrooms left, the new mushroom's genes are
     * random; otherwise they are the mutated crossover of two different
     * mushrooms of the field, drawn at `a` and then at `b` among the rest.
     */
    method SetParameters(mushroom: Mushroom, useGenetic: bool, destroyed: set<Mushroom>, randomGenes: seq<real>,
      a: int, b: int, crossoverIndex: int, values: seq<real>, factors: seq<real>)
      requires var ms := Living(mushrooms, destroyed);
        useGenetic && |ms| >= 2 ==>
          0 <= a < |ms| && 0 <= b < |ms| - 1 &&
          |ms[a].genes| == |ms[SecondParent(a, b)].genes| &&
          0 <= crossoverIndex <= |ms[a].genes| &&
          |values| >= |ms[a].genes| && |factors| >= |ms[a].genes|
      modifies this, mushroom
      ensures mushrooms == Living(old(mushrooms), destroyed)
      ensures !useGenetic || |mushrooms| < 2 ==> mushroom.genes == randomGenes
      ensures useGenetic && |mushrooms| >= 2 ==>
        var parentA, parentB := mushrooms[a], mushrooms[SecondParent(a, b)];
        SecondParent(a, b) != a &&
        mushroom.genes == Mutated(Crossover(old(parentA.genes), old(parentB.genes), crossoverIndex),
          mutationRate, values, factors)
    {
      mushrooms := Living(mushrooms, destroyed);
      if !useGenetic || |mushrooms| < 2 {
        mushroom.genes := randomGenes;
        return;
      }
      var candidates := mushrooms;
      var parentAIndex := a;
      var parentA := candidates[parentAIndex];
      candidates := RemoveAt(candidates, parentAIndex);
      var parentBIndex := b;
      var parentB := candidates[parentBIndex];
      ParentsAreDistinct(|mushrooms|, a, b);
      assert parentB == mushrooms[SecondParent(a, b)];
      var child := Crossover(parentA.genes, parentB.genes, crossoverIndex);
      var genes := new real[|child|](i requires 0 <= i < |child| => child[i]);
      assert genes[..] == child;
      Mutate(genes, mutationRate, values, factors);
      mushroom.genes := genes[..];
    }

    /**
     * DestroyLeastFitMushroom: the destroyed mushrooms leave the list; with
     * two or fewer left nothing is destroyed, otherwise the first mushroom
     * of least fitness is.
     */
    method DestroyLeastFitMushroom(destroyed: set<Mushroom>) returns (victim: Mushroom?)
      requires var ms := Living(mushrooms, destroyed);
        |ms| > 2 ==> forall m :: m in ms ==> |m.genes| >= 8
      modifies this
      ensures mushrooms == Living(old(mushrooms), destroyed)
      ensures |mushrooms| <= 2 <==> victim == null
      ensures victim != null ==> exists i :: FirstLeastFit(mushrooms, i) && mushrooms[i] == victim
    {
      var ms := Living(mushrooms, destroyed);
      mushrooms := ms;
      if |ms| <= 2 {
        return null;
      }
      var fitness := map m | m in ms :: Fitness(m.genes);
      var selector := m => if m in fitness then fitness[m] else 0.0;
      var r := ArgMin(NonNull(ms), selector);
      ArgMinIsLeastFit(ms, selector);
      victim := r.value.value;
    }
  }
}
