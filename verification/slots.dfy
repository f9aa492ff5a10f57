/** Editing the list of input rows (`userInputs`). */
module Slots {
  import opened Archive

  /**
   * `slots.filter((_, idx) => idx !== index)`: drops the row at `index` and keeps
   * the others in order; an index that names no row removes nothing.
   */
  function WithoutIndex(slots: seq<Slot>, index: int): (r: seq<Slot>)
    ensures 0 <= index < |slots| ==>
      && |r| == |slots| - 1
      && (forall j :: 0 <= j < index ==> r[j] == slots[j])
      && (forall j :: index <= j < |r| ==> r[j] == slots[j + 1])
    ensures !(0 <= index < |slots|) ==> r == slots
  {
    if slots == [] then []
    else if index == 0 then slots[1..]
    else [slots[0]] + WithoutIndex(slots[1..], index - 1)
  }

  /** Adding a row and then removing it gives back the original rows. */
  lemma RemoveUndoesAdd(slots: seq<Slot>)
    ensures WithoutIndex(slots + [EmptySlot], |slots|) == slots
  {
  }
}
