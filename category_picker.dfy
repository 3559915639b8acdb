/** The category picker modal: a local copy of the parent's selection that the checkboxes
    toggle, handed back to the parent only on save. */
module CategoryPicker {
  import opened Common

  datatype Category = Category(categoryId: nat, name: string)

  /** The checkbox value of each listed category: checked exactly when its id is in the
      selection. */
  function CheckedFlags(categories: seq<Category>, selection: seq<nat>): (r: seq<bool>)
    ensures |r| == |categories|
    ensures forall i :: 0 <= i < |r| ==> (r[i] <==> categories[i].categoryId in selection)
  {
    if |categories| == 0 then []
    else [categories[0].categoryId in selection] + CheckedFlags(categories[1..], selection)
  }

  /** Toggling one id flips the checkbox of every category with that id and no other. */
  lemma ToggleFlipsChecked(categories: seq<Category>, selection: seq<nat>, id: nat)
    ensures forall i :: 0 <= i < |categories| ==>
              CheckedFlags(categories, Toggle(selection, id))[i] ==
                if categories[i].categoryId == id then !CheckedFlags(categories, selection)[i]
                else CheckedFlags(categories, selection)[i]
  {
    ToggleFlips(selection, id);
  }

  class CategoryPickerState {
    /** The parent's selection, as last passed in. */
    var selectedCategories: seq<nat>
    /** The picker's working copy. */
    var localSelectedCategories: seq<nat>
    /** Every selection handed to `onSelectCategories`, in order. */
    var saved: seq<seq<nat>>
    /** How many times `onClose` was called. */
    var closeCount: nat

    constructor (selected: seq<nat>)
      ensures selectedCategories == selected && localSelectedCategories == selected
      ensures saved == [] && closeCount == 0
    {
      selectedCategories, localSelectedCategories := selected, selected;
      saved, closeCount := [], 0;
    }

    predicate IsChecked(id: nat)
      reads this`localSelectedCategories
    {
      id in localSelectedCategories
    }

    /** The parent passes a new selection: the working copy is reset to it, discarding local
        toggles. */
    method PropChanged(selected: seq<nat>)
      modifies this`selectedCategories, this`localSelectedCategories
      ensures selectedCategories == selected && localSelectedCategories == selected
    {
      selectedCategories := selected;
      localSelectedCategories := selected;
    }

    /** A checkbox press: the id leaves the working copy if present, otherwise it is appended. */
    method HandleCategoryChange(id: nat)
      modifies this`localSelectedCategories
      ensures localSelectedCategories == Toggle(old(localSelectedCategories), id)
      ensures IsChecked(id) <==> !old(IsChecked(id))
      ensures forall y :: y != id ==> (IsChecked(y) <==> old(IsChecked(y)))
    {
      ToggleFlips(localSelectedCategories, id);
      if id in localSelectedCategories {
        localSelectedCategories := RemoveAll(localSelectedCategories, id);
      } else {
        localSelectedCategories := localSelectedCategories + [id];
      }
    }

    /** Save hands the working copy to the parent, then closes. */
    method HandleSave()
      modifies this`saved, this`closeCount
      ensures saved == old(saved) + [localSelectedCategories]
      ensures closeCount == old(closeCount) + 1
    {
      saved := saved + [localSelectedCategories];
      closeCount := closeCount + 1;
    }

    /** Cancel only closes: nothing reaches the parent and the working copy keeps its toggles
        until the parent's selection changes. */
    method HandleCancel()
      modifies this`closeCount
      ensures closeCount == old(closeCount) + 1
    {
      closeCount := closeCount + 1;
    }
  }
}
