/** One promotion card in the partner's list: its availability label, its image, and the
    delete confirmation modal in front of `handleDelete`. */
module PromotionCard {
  import opened Common
  import opened Text

  const Unlimited := "sin límite"

  /** `available_quantity ? available_quantity : 'sin límite'`: a null or zero quantity reads
      as unlimited. */
  function AvailabilityLabel(quantity: Option<int>): string
  {
    if Truthy(quantity) then IntToString(quantity.value) else Unlimited
  }

  /** The label reads "sin límite" exactly when the quantity is null or zero; otherwise it is
      the quantity's decimal text, which parses back to the quantity. */
  lemma AvailabilityLabelCases(quantity: Option<int>)
    ensures AvailabilityLabel(quantity) == Unlimited <==> !Truthy(quantity)
    ensures Truthy(quantity) ==> ParseInt(AvailabilityLabel(quantity)) == Num(quantity.value)
  {
    if Truthy(quantity) {
      var i := quantity.value;
      var shown := IntToString(i);
      ParseIntOfString(i);
      if i < 0 {
        assert shown[0] == '-';
      } else {
        assert IsDigit(shown[0]);
      }
      assert shown[0] != Unlimited[0];
    }
  }

  /** What the card's image shows. */
  datatype ImageSource = Remote(uri: string) | Placeholder

  function CardImage(images: seq<PromotionImage>): (r: ImageSource)
    ensures r.Placeholder? <==> |images| == 0
    ensures r.Remote? ==> r.uri == images[0].imagePath
  {
    if |images| > 0 then Remote(images[0].imagePath) else Placeholder
  }

  class PromotionCardState {
    const promotion: Promotion
    var isModalVisible: bool
    var selectedPromotionId: Option<nat>
    /** Every id passed to `handleDelete`, in order. */
    var deleted: seq<nat>

    constructor (p: Promotion)
      ensures promotion == p && !isModalVisible && selectedPromotionId.None? && deleted == []
      ensures Valid()
    {
      promotion := p;
      isModalVisible, selectedPromotionId, deleted := false, None, [];
    }

    /** Only the card's own promotion is ever selected or deleted. */
    ghost predicate Valid()
      reads this`selectedPromotionId, this`deleted
    {
      && (selectedPromotionId.None? || selectedPromotionId == Some(promotion.promotionId))
      && forall i :: 0 <= i < |deleted| ==> deleted[i] == promotion.promotionId
    }

    /** The trash icon, the only caller, passes the card's own id: it is stored and the
        confirmation shown. Nothing is deleted yet. */
    method ShowDeleteConfirmation()
      requires Valid()
      modifies this`selectedPromotionId, this`isModalVisible
      ensures selectedPromotionId == Some(promotion.promotionId) && isModalVisible
      ensures Valid()
    {
      selectedPromotionId := Some(promotion.promotionId);
      isModalVisible := true;
    }

    /** "Sí": `handleDelete` runs once with the stored id when that id is truthy; the modal is
        hidden and the stored id is left in place. The button exists only inside the visible
        modal. */
    method ConfirmDelete()
      requires isModalVisible && Valid()
      modifies this`deleted, this`isModalVisible
      ensures deleted == old(deleted) +
                (if IdTruthy(selectedPromotionId) then [selectedPromotionId.value] else [])
      ensures !isModalVisible && selectedPromotionId == old(selectedPromotionId)
      ensures Valid()
    {
      if IdTruthy(selectedPromotionId) {
        deleted := deleted + [selectedPromotionId.value];
      }
      isModalVisible := false;
    }

    /** "No": the stored id is cleared and the modal hidden; nothing is deleted. */
    method CancelDelete()
      requires Valid()
      modifies this`selectedPromotionId, this`isModalVisible
      ensures selectedPromotionId.None? && !isModalVisible && deleted == old(deleted)
      ensures Valid()
    {
      selectedPromotionId := None;
      isModalVisible := false;
    }
  }
}
