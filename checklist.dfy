/** The shopping list of components/ingredient-checklist.tsx: the set of ticked
    ingredient positions of a recipe with `count` ingredients. */
module IngredientChecklist {
  import opened Common

  /** The positions `0..n-1`, `new Set(ingredients.map((_, index) => index))`. */
  function AllIndices(n: nat): (r: set<nat>)
    ensures forall i: nat :: i in r <==> i < n
  {
    if n == 0 then {} else AllIndices(n - 1) + {n - 1}
  }

  lemma {:induction false} AllIndicesCard(n: nat)
    ensures |AllIndices(n)| == n
  {
    if n > 0 {
      AllIndicesCard(n - 1);
      assert n - 1 !in AllIndices(n - 1);
    }
  }

  /** Among the positions of the list, having as many ticks as ingredients is
      having every position ticked. */
  lemma AllCheckedIff(checked: set<nat>, n: nat)
    requires forall i :: i in checked ==> i < n
    ensures |checked| == n <==> checked == AllIndices(n)
  {
    AllIndicesCard(n);
    assert checked <= AllIndices(n);
    if |checked| == n {
      SubsetOfEqualSize(checked, AllIndices(n));
    }
  }

  class Checklist {
    const count: nat
    var checked: set<nat>

    /** Ticks only come from the checkboxes, one per ingredient position. */
    predicate Valid()
      reads this
    {
      forall i :: i in checked ==> i < count
    }

    constructor(count: nat)
      ensures this.count == count && checked == {} && Valid()
    {
      this.count := count;
      checked := {};
    }

    /** `isAllChecked`: as many ticks as ingredients. */
    predicate IsAllChecked()
      reads this
    {
      |checked| == count
    }

    /** `handleIngredientCheck`: tick or untick one position, leaving the others. */
    method Check(index: nat, isChecked: bool)
      requires Valid() && index < count
      modifies this
      ensures Valid()
      ensures checked == if isChecked then old(checked) + {index} else old(checked) - {index}
    {
      if isChecked {
        checked := checked + {index};
      } else {
        checked := checked - {index};
      }
    }

    /** `handleCheckAll`: untick everything when all are ticked, otherwise tick
        every position. */
    method CheckAll()
      requires Valid()
      modifies this
      ensures Valid()
      ensures old(checked) == AllIndices(count) ==> checked == {}
      ensures old(checked) != AllIndices(count) ==> checked == AllIndices(count) && IsAllChecked()
    {
      AllCheckedIff(checked, count);
      AllIndicesCard(count);
      if |checked| == count {
        checked := {};
      } else {
        checked := AllIndices(count);
      }
    }

    /** `handleReset`. */
    method Reset()
      modifies this
      ensures checked == {} && Valid()
    {
      checked := {};
    }
  }
}
