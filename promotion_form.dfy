/** The form that creates a promotion: the submit guard chain, the loading flag and the payload
    sent to `createPromotion`. */
module PromotionForm {
  import opened Common

  /** The body sent by `createPromotion`. The dates are the date part of each picked date. */
  datatype PromotionCreate = PromotionCreate(
    branchId: nat,
    title: string,
    description: string,
    startDate: int,
    expirationDate: int,
    discount: int,
    availableQuantity: Option<int>,
    partnerId: nat,
    categoryIds: seq<nat>,
    images: seq<CompressedImage>)

  /** How the submit ends: blocked by missing ids, thrown while reading the first branch,
      blocked by an empty field, or dispatched. */
  datatype SubmitOutcome = MissingIds | Crashed | MissingFields | Dispatched

  /** Every field is required here: title, description, both dates, a non-null discount, at
      least one category and at least one image. The quantity may stay null. */
  predicate FieldsComplete(title: string, description: string, startDate: Option<int>,
                           endDate: Option<int>, discount: Option<int>, categories: seq<nat>,
                           images: seq<CompressedImage>)
  {
    && title != "" && description != "" && startDate.Some? && endDate.Some?
    && discount.Some? && |categories| > 0 && |images| > 0
  }

  /** How the awaited dispatch settles. `createPromotion` catches its own errors, so in the
      application only `Resolved` occurs. */
  datatype Settlement = Resolved | Rejected

  class PromotionFormState {
    var title: string
    var description: string
    var discount: Option<int>
    var availableQuantity: Option<int>
    var imagePaths: seq<CompressedImage>
    var startDate: Option<int>
    var endDate: Option<int>
    var selectedCategories: seq<nat>
    var loading: bool
    /** Every `createPromotion` dispatched, in order. */
    var creates: seq<PromotionCreate>
    /** How many times `onClose` was called. */
    var closeCount: nat

    /** The payload for the current fields, given the first branch and the user id. */
    function Payload(branchId: nat, userId: nat): (r: PromotionCreate)
      requires startDate.Some? && endDate.Some? && discount.Some?
      reads this
      ensures r.images == imagePaths && r.categoryIds == selectedCategories
      ensures r.startDate == startDate.value && r.expirationDate == endDate.value
      ensures r.branchId == branchId && r.partnerId == userId
      ensures r.title == title && r.description == description
      ensures r.discount == discount.value && r.availableQuantity == availableQuantity
    {
      PromotionCreate(branchId, title, description, startDate.value, endDate.value,
                      discount.value, availableQuantity, userId, selectedCategories, imagePaths)
    }

    constructor ()
      ensures title == "" && description == "" && discount.None? && availableQuantity.None?
      ensures imagePaths == [] && startDate.None? && endDate.None? && selectedCategories == []
      ensures !loading && creates == [] && closeCount == 0
    {
      title, description, discount, availableQuantity := "", "", None, None;
      imagePaths, startDate, endDate, selectedCategories := [], None, None, [];
      loading, creates, closeCount := false, [], 0;
    }

    method HandleImagesCompressed(images: seq<CompressedImage>)
      modifies this`imagePaths
      ensures imagePaths == images
    {
      imagePaths := images;
    }

    /** The picker's selection replaces the current one wholesale. */
    method HandleSelectCategories(ids: seq<nat>)
      modifies this`selectedCategories
      ensures selectedCategories == ids
    {
      selectedCategories := ids;
    }

    method SetTitle(text: string)
      modifies this`title
      ensures title == text
    {
      title := text;
    }

    method SetDescription(text: string)
      modifies this`description
      ensures description == text
    {
      description := text;
    }

    /** The discount and quantity inputs store `Number(text)`, taken here as already parsed. */
    method SetDiscount(value: int)
      modifies this`discount
      ensures discount == Some(value)
    {
      discount := Some(value);
    }

    method SetAvailableQuantity(value: int)
      modifies this`availableQuantity
      ensures availableQuantity == Some(value)
    {
      availableQuantity := Some(value);
    }

    method HandleStartDateChange(date: Option<int>)
      modifies this`startDate
      ensures startDate == if date.Some? then date else old(startDate)
    {
      if date.Some? {
        startDate := date;
      }
    }

    method HandleEndDateChange(date: Option<int>)
      modifies this`endDate
      ensures endDate == if date.Some? then date else old(endDate)
    {
      if date.Some? {
        endDate := date;
      }
    }

    /** Submit. Loading is switched on before any guard and no guard switches it off; a
        resolved dispatch switches it off, shows success and closes, a rejected one only
        alerts. */
    method HandleSubmit(userId: Option<nat>, partner: Option<Partner>, settlement: Settlement)
      returns (outcome: SubmitOutcome)
      modifies this`loading, this`creates, this`closeCount
      ensures FirstBranchGuard(userId, partner).IdsMissing? ==> outcome == MissingIds
      ensures FirstBranchGuard(userId, partner).BranchCrash? ==> outcome == Crashed
      ensures FirstBranchGuard(userId, partner).BranchFound? ==>
                outcome == if FieldsComplete(title, description, startDate, endDate, discount,
                                             selectedCategories, imagePaths)
                           then Dispatched else MissingFields
      ensures outcome != Dispatched ==>
                loading && creates == old(creates) && closeCount == old(closeCount)
      ensures outcome == Dispatched ==>
                && creates == old(creates) +
                     [Payload(FirstBranchGuard(userId, partner).branchId, userId.value)]
                && loading == (settlement == Rejected)
                && closeCount == old(closeCount) + (if settlement == Resolved then 1 else 0)
    {
      loading := true;
      var lookup := FirstBranchGuard(userId, partner);
      if lookup.IdsMissing? {
        return MissingIds;
      }
      if lookup.BranchCrash? {
        return Crashed;
      }
      if !FieldsComplete(title, description, startDate, endDate, discount, selectedCategories,
                         imagePaths) {
        return MissingFields;
      }
      creates := creates + [Payload(lookup.branchId, userId.value)];
      if settlement == Resolved {
        loading := false;
        closeCount := closeCount + 1;
      }
      outcome := Dispatched;
    }
  }
}
