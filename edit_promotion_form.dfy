/** The form that edits an existing promotion: its initial state copied from the promotion,
    image deletion bookkeeping, and the submit guard chain with its payload. */
module EditPromotionForm {
  import opened Common

  /** `value || null` on a nullable number: 0 becomes null. */
  function OrNull(q: Option<int>): (r: Option<int>)
    ensures r.Some? <==> Truthy(q)
    ensures r.Some? ==> r == q
  {
    if Truthy(q) then q else None
  }

  /** The existing images without those whose id is `imageId`. */
  function WithoutImage(images: seq<PromotionImage>, imageId: nat): (r: seq<PromotionImage>)
    ensures forall i :: 0 <= i < |r| ==> r[i].imageId != imageId
    ensures forall img :: img in r <==> img in images && img.imageId != imageId
  {
    Filter(images, (img: PromotionImage) => img.imageId != imageId)
  }

  /** Deleting an image keeps the other images in order with their multiplicities. */
  lemma WithoutImageIsOrderedSublist(images: seq<PromotionImage>, imageId: nat, img: PromotionImage)
    ensures IsSubsequence(WithoutImage(images, imageId), images)
    ensures multiset(WithoutImage(images, imageId))[img] ==
              if img.imageId != imageId then multiset(images)[img] else 0
  {
    FilterIsSubsequence(images, (img: PromotionImage) => img.imageId != imageId);
    FilterMultiset(images, (img: PromotionImage) => img.imageId != imageId, img);
  }

  /** The body sent by `modifyPromotion`. Dates are present only when picked; the images are
      only the newly added ones. */
  datatype PromotionUpdate = PromotionUpdate(
    branchId: nat,
    title: string,
    description: string,
    startDate: Option<int>,
    expirationDate: Option<int>,
    discount: int,
    availableQuantity: Option<int>,
    partnerId: nat,
    categoryIds: seq<nat>,
    images: seq<CompressedImage>)

  /** One `modifyPromotion` dispatch: the promotion, the body and the image ids to delete. */
  datatype UpdateRequest = UpdateRequest(promotionId: nat, data: PromotionUpdate, deletedImageIds: seq<nat>)

  /** How the submit ends: blocked by missing ids, thrown while reading the first branch,
      blocked by an empty field, refused for lack of a promotion id, or dispatched. */
  datatype SubmitOutcome = MissingIds | Crashed | MissingFields | NoPromotionId | Dispatched

  /** The fields guard: title, description, a non-null discount and at least one category.
      Dates and images are not required. */
  predicate FieldsComplete(title: string, description: string, discount: Option<int>,
                           categories: seq<nat>)
  {
    title != "" && description != "" && discount.Some? && |categories| > 0
  }

  /** How the dispatched thunk settles. `modifyPromotion` catches its own errors, so in the
      application only `Resolved` occurs. */
  datatype Settlement = Resolved | Rejected

  class EditPromotionFormState {
    /** The promotion being edited, as passed in. */
    const promotion: Promotion
    var title: string
    var description: string
    var discount: Option<int>
    var availableQuantity: Option<int>
    var existingImages: seq<PromotionImage>
    var newImages: seq<CompressedImage>
    var startDate: Option<int>
    var endDate: Option<int>
    var isLoading: bool
    var selectedCategories: seq<nat>
    var imagesToDelete: seq<nat>
    /** Every `modifyPromotion` dispatched, in order. */
    var updates: seq<UpdateRequest>
    /** How many times `onClose` was called. */
    var closeCount: nat

    /** The payload for the current fields, given the first branch and the user id. */
    function Payload(branchId: nat, userId: nat): (r: PromotionUpdate)
      reads this
      ensures r.images == newImages && r.categoryIds == selectedCategories
      ensures r.startDate == startDate && r.expirationDate == endDate
      ensures r.branchId == branchId && r.partnerId == userId
      ensures r.title == title && r.description == description
      ensures discount.Some? ==> r.discount == discount.value
      ensures r.availableQuantity == availableQuantity
    {
      PromotionUpdate(branchId, title, description, startDate, endDate,
                      if discount.Some? then discount.value else 0, availableQuantity, userId,
                      selectedCategories, newImages)
    }

    /** The initial state copies the promotion: title, description, the discount and quantity
        with 0 turned into null, the images, and the category ids in order. */
    constructor (p: Promotion)
      ensures promotion == p
      ensures title == p.title && description == p.description
      ensures discount == OrNull(p.discount) && availableQuantity == OrNull(p.availableQuantity)
      ensures existingImages == p.images && newImages == []
      ensures startDate.None? && endDate.None? && !isLoading
      ensures selectedCategories == p.categoryIds && imagesToDelete == []
      ensures updates == [] && closeCount == 0
    {
      promotion := p;
      title, description := p.title, p.description;
      discount, availableQuantity := OrNull(p.discount), OrNull(p.availableQuantity);
      existingImages, newImages := p.images, [];
      startDate, endDate, isLoading := None, None, false;
      selectedCategories, imagesToDelete := p.categoryIds, [];
      updates, closeCount := [], 0;
    }

    method HandleImagesCompressed(images: seq<CompressedImage>)
      modifies this`newImages
      ensures newImages == images
    {
      newImages := images;
    }

    method HandleSelectCategories(ids: seq<nat>)
      modifies this`selectedCategories
      ensures selectedCategories == ids
    {
      selectedCategories := ids;
    }

    /** Records the id for deletion and hides every existing image with that id. */
    method HandleDeleteImage(imageId: nat)
      modifies this`imagesToDelete, this`existingImages
      ensures imagesToDelete == old(imagesToDelete) + [imageId]
      ensures existingImages == WithoutImage(old(existingImages), imageId)
    {
      imagesToDelete := imagesToDelete + [imageId];
      existingImages := WithoutImage(existingImages, imageId);
    }

    method SetTitle(text: string)
      modifies this`title
      ensures title == text
    {
      title := text;
    }

    method SetDescription(text: string)
      modifies this`description
      ensures description == text
    {
      description := text;
    }

    /** The discount and quantity inputs store `Number(text)`, taken here as already parsed. */
    method SetDiscount(value: int)
      modifies this`discount
      ensures discount == Some(value)
    {
      discount := Some(value);
    }

    method SetAvailableQuantity(value: int)
      modifies this`availableQuantity
      ensures availableQuantity == Some(value)
    {
      availableQuantity := Some(value);
    }

    /** A date picker event; a dismissed picker delivers no date and keeps the old one. */
    method HandleStartDateChange(date: Option<int>)
      modifies this`startDate
      ensures startDate == if date.Some? then date else old(startDate)
    {
      if date.Some? {
        startDate := date;
      }
    }

    method HandleEndDateChange(date: Option<int>)
      modifies this`endDate
      ensures endDate == if date.Some? then date else old(endDate)
    {
      if date.Some? {
        endDate := date;
      }
    }

    /** Submit. The id guard comes first (a partner without branches throws there), then the
        fields guard; both leave every field unchanged. Past them, loading is switched on and
        the update is dispatched when the promotion has a truthy id; loading is off again on
        every path that gets past the guards, and the form closes when the dispatch resolves. */
    method HandleSubmit(userId: Option<nat>, partner: Option<Partner>, settlement: Settlement)
      returns (outcome: SubmitOutcome)
      modifies this`isLoading, this`updates, this`closeCount
      ensures FirstBranchGuard(userId, partner).IdsMissing? ==> outcome == MissingIds
      ensures FirstBranchGuard(userId, partner).BranchCrash? ==> outcome == Crashed
      ensures FirstBranchGuard(userId, partner).BranchFound? ==>
                outcome == if !FieldsComplete(title, description, discount, selectedCategories)
                           then MissingFields
                           else if promotion.promotionId == 0 then NoPromotionId
                           else Dispatched
      ensures outcome in {MissingIds, Crashed, MissingFields} ==>
                isLoading == old(isLoading) && updates == old(updates) && closeCount == old(closeCount)
      ensures outcome in {NoPromotionId, Dispatched} ==> !isLoading
      ensures outcome == NoPromotionId ==> updates == old(updates) && closeCount == old(closeCount)
      ensures outcome == Dispatched ==>
                && updates == old(updates) + [UpdateRequest(promotion.promotionId,
                     Payload(FirstBranchGuard(userId, partner).branchId, userId.value), imagesToDelete)]
                && closeCount == old(closeCount) + (if settlement == Resolved then 1 else 0)
    {
      var lookup := FirstBranchGuard(userId, partner);
      if lookup.IdsMissing? {
        return MissingIds;
      }
      if lookup.BranchCrash? {
        return Crashed;
      }
      if !FieldsComplete(title, description, discount, selectedCategories) {
        return MissingFields;
      }
      isLoading := true;
      var data := Payload(lookup.branchId, userId.value);
      if promotion.promotionId != 0 {
        updates := updates + [UpdateRequest(promotion.promotionId, data, imagesToDelete)];
        isLoading := false;
        if settlement == Resolved {
          closeCount := closeCount + 1;
        }
        outcome := Dispatched;
      } else {
        isLoading := false;
        outcome := NoPromotionId;
      }
    }
  }
}
