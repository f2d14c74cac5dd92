/** The help centre's FAQ list: tapping a question opens its answer and
    closes any other. */
module Support {
  import opened Common

  /** The number of questions listed. */
  const FaqCount: nat := 3

  /** `toggleExpand`: the open question closes; any other question opens in
      its place. */
  function Toggled(expanded: Option<nat>, index: nat): (r: Option<nat>)
    ensures expanded == Some(index) ==> r.None?
    ensures expanded != Some(index) ==> r == Some(index)
  {
    if expanded == Some(index) then None else Some(index)
  }

  /** The answer of question `index` is on screen. */
  predicate AnswerVisible(expanded: Option<nat>, index: nat)
  {
    expanded == Some(index)
  }

  /** Whatever the taps, at most one answer is on screen. */
  lemma AtMostOneAnswer(expanded: Option<nat>, i: nat, j: nat)
    requires AnswerVisible(expanded, i) && AnswerVisible(expanded, j)
    ensures i == j
  {
  }

  /** Tapping the same question twice closes it again when it was closed,
      and a tap always shows the tapped answer or none at all. */
  lemma ToggleTwice(expanded: Option<nat>, index: nat)
    ensures expanded.None? ==> Toggled(Toggled(expanded, index), index).None?
    ensures expanded == Some(index) ==> Toggled(Toggled(expanded, index), index) == expanded
    ensures forall j: nat :: j != index ==> !AnswerVisible(Toggled(expanded, index), j)
  {
  }

  class FaqList {
    var expandedIndex: Option<nat>

    constructor ()
      ensures expandedIndex.None?
    {
      expandedIndex := None;
    }

    method ToggleExpand(index: nat)
      requires index < FaqCount
      modifies this`expandedIndex
      ensures expandedIndex == Toggled(old(expandedIndex), index)
      ensures expandedIndex.Some? ==> expandedIndex.value == index
    {
      expandedIndex := Toggled(expandedIndex, index);
    }
  }
}
