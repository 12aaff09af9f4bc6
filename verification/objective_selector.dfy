/**
 * The objective cards (src/components/ObjectiveSelector.tsx): three fixed
 * objectives, single choice, highlighted by equality with the current value.
 */
module ObjectiveSelector {

  /** One card; the icon is rendering only and is not kept. */
  datatype Objective = Objective(id: string, caption: string, description: string)

  const Objectives: seq<Objective> := [
    Objective("awareness", "Awareness", "Maximize reach"),
    Objective("consideration", "Consideration", "Engage & inform"),
    Objective("conversion", "Conversion", "Drive sales now")
  ]

  /** The catalog holds exactly the three objective ids, in this order. */
  lemma ObjectiveCatalog()
    ensures |Objectives| == 3
    ensures Objectives[0].id == "awareness" && Objectives[1].id == "consideration"
         && Objectives[2].id == "conversion"
  {
  }

  /** A card is highlighted iff its id equals the current selection. */
  predicate IsSelected(selectedObjective: string, objectiveId: string)
    ensures IsSelected(selectedObjective, objectiveId) ==>
      forall k :: 0 <= k < |Objectives| && Objectives[k].id != objectiveId ==> selectedObjective != Objectives[k].id
  {
    selectedObjective == objectiveId
  }

  /** The highlight flags of the three cards, in catalog order. */
  function Highlights(selectedObjective: string): (flags: seq<bool>)
    ensures |flags| == |Objectives|
    ensures forall i :: 0 <= i < |flags| ==> (flags[i] <==> IsSelected(selectedObjective, Objectives[i].id))
  {
    seq(|Objectives|, i requires 0 <= i < |Objectives| => IsSelected(selectedObjective, Objectives[i].id))
  }

  /**
   * At most one card is highlighted; none when nothing is chosen; exactly the
   * clicked one after a click on any card.
   */
  lemma AtMostOneHighlighted(selectedObjective: string)
    ensures forall i, j :: 0 <= i < j < 3 ==> !(Highlights(selectedObjective)[i] && Highlights(selectedObjective)[j])
    ensures selectedObjective == "" ==> forall i :: 0 <= i < 3 ==> !Highlights(selectedObjective)[i]
  {
    var h := Highlights(selectedObjective);
    forall i, j | 0 <= i < j < 3 ensures !(h[i] && h[j]) {
      assert Objectives[i].id != Objectives[j].id;
    }
  }

  /**
   * A click on card `k` reports that card's id through `onObjectiveChange`;
   * the parent stores it, so only that card is highlighted afterwards, and a
   * click on the card already chosen keeps it chosen (there is no deselect).
   */
  function Click(selectedObjective: string, k: nat): (next: string)
    requires k < |Objectives|
    ensures IsSelected(next, Objectives[k].id)
    ensures forall i :: 0 <= i < |Objectives| && i != k ==> !Highlights(next)[i]
    ensures IsSelected(selectedObjective, Objectives[k].id) ==> next == selectedObjective
  {
    assert forall i :: 0 <= i < |Objectives| && i != k ==> Objectives[i].id != Objectives[k].id;
    Objectives[k].id
  }
}
