/** The branches screen: the list of the partner's branches, the modal holding the branch form,
    and which branch that form receives. */
module Branches {
  import opened Common
  import opened BranchForm

  /** The create button is rendered only while the partner has no branch. */
  predicate ShowsCreateButton(branches: seq<Branch>)
  {
    |branches| == 0
  }

  class BranchesState {
    var branches: seq<Branch>
    var isModalVisible: bool
    /** The branch given to the form; `None` is the null the create path passes. */
    var selectedBranch: Option<Branch>

    constructor (storeBranches: seq<Branch>)
      ensures branches == storeBranches && !isModalVisible && selectedBranch.None?
    {
      branches, isModalVisible, selectedBranch := storeBranches, false, None;
    }

    /** "Ver" on a listed branch: the form opens on that branch. */
    method HandleView(branch: Branch)
      modifies this`selectedBranch, this`isModalVisible
      ensures selectedBranch == Some(branch) && isModalVisible
    {
      selectedBranch := Some(branch);
      isModalVisible := true;
    }

    /** "Crear Sucursal", rendered only while the partner has no branch: the form opens on a
        null branch. */
    method HandleCreate()
      requires ShowsCreateButton(branches)
      modifies this`selectedBranch, this`isModalVisible
      ensures selectedBranch.None? && isModalVisible
    {
      selectedBranch := None;
      isModalVisible := true;
    }

    /** The form's `onClose`: the modal is hidden and the selection cleared. */
    method CloseModal()
      modifies this`selectedBranch, this`isModalVisible
      ensures selectedBranch.None? && !isModalVisible
    {
      isModalVisible := false;
      selectedBranch := None;
    }

    /** The form mounted in the modal, built from the selected branch. */
    method OpenForm() returns (form: BranchFormState)
      ensures fresh(form) && form.branch == selectedBranch && form.images == []
    {
      form := new BranchFormState(selectedBranch);
    }
  }

  /** The create path end to end: the create button opens the form on a null branch. The
      form has no image yet, so its first render reads `image_url` of null and throws; the
      submit button inside it is never shown. A submit on that form, were it reached, would
      end in the caught exception with nothing sent. */
  method CreateThenSubmit(screen: BranchesState, userId: nat) returns (view: ImageView, outcome: SubmitOutcome)
    requires ShowsCreateButton(screen.branches)
    modifies screen`selectedBranch, screen`isModalVisible
    ensures view == RenderCrash
    ensures outcome == NullBranch
  {
    screen.HandleCreate();
    var form := screen.OpenForm();
    view := RenderedImage(form.images, form.branch);
    outcome := form.HandleSubmit(Some(userId));
  }
}
