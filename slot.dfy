/** An optional identifier slot, the state a view keeps for "which single element is open".
    Both the decline-reason picker of the availability view and the accordion of the
    training view keep one such slot and toggle it with the same rule. */
module Slot {

  datatype Option<+T> = None | Some(value: T)

  /** A click on the element `id`: closes it when it is the open one, otherwise opens it
      (and thereby closes whichever other element was open). */
  function Toggle(slot: Option<string>, id: string): (r: Option<string>)
    ensures r == None <==> slot == Some(id)
    ensures r != None ==> r == Some(id)
  {
    if slot == Some(id) then None else Some(id)
  }

  /** Clicking an element other than the open one switches the slot straight to it. */
  lemma ToggleSwitches(other: string, id: string)
    requires other != id
    ensures Toggle(Some(other), id) == Some(id)
  {
  }

  /** Two clicks on the same element restore the slot exactly when the slot was closed or held
      that element; from a slot holding another element the two clicks leave it closed. */
  lemma ToggleTwice(slot: Option<string>, id: string)
    ensures Toggle(Toggle(slot, id), id) == slot <==> (slot == None || slot == Some(id))
    ensures slot != None && slot != Some(id) ==> Toggle(Toggle(slot, id), id) == None
  {
  }
}
