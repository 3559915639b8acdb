/** The multi-image picker: the list of picked URIs, and the all-or-nothing compression whose
    result is handed to the parent. */
module MultiImageCompressor {
  import opened Common
  import opened Text

  /** `image_${time}.jpg` for a clock reading in milliseconds. */
  function ImageName(time: nat): string
  {
    "image_" + NatToString(time) + ".jpg"
  }

  /** `Promise.all` over the URIs: image i gets its base64 text, or none when the manipulator
      gives no base64 or fails, and is named after clock reading `clock(i)`. One missing base64
      rejects the whole batch. */
  function Compress(uris: seq<string>, base64Of: string -> Option<string>, clock: nat -> nat)
    : (r: Option<seq<CompressedImage>>)
    ensures r.None? <==> exists i :: 0 <= i < |uris| && base64Of(uris[i]).None?
    ensures r.Some? ==> |r.value| == |uris|
    ensures r.Some? ==> forall i :: 0 <= i < |uris| ==>
              r.value[i] == CompressedImage(ImageName(clock(i)), base64Of(uris[i]).value)
  {
    if |uris| == 0 then Some([])
    else
      var init := Compress(uris[..|uris| - 1], base64Of, clock);
      var last := base64Of(uris[|uris| - 1]);
      if init.None? || last.None? then None
      else Some(init.value + [CompressedImage(ImageName(clock(|uris| - 1)), last.value)])
  }

  /** Compressing a longer list that succeeds begins with the compression of its prefix: the
      images already shown are compressed again, in front of the new ones. */
  lemma {:induction false} CompressPrefix(a: seq<string>, b: seq<string>,
                                          base64Of: string -> Option<string>, clock: nat -> nat)
    requires Compress(a + b, base64Of, clock).Some?
    ensures Compress(a, base64Of, clock).Some?
    ensures Compress(a, base64Of, clock).value == Compress(a + b, base64Of, clock).value[..|a|]
  {
    var whole := Compress(a + b, base64Of, clock).value;
    forall i | 0 <= i < |a|
      ensures base64Of(a[i]).Some?
    {
      assert a[i] == (a + b)[i];
    }
    var part := Compress(a, base64Of, clock).value;
    forall i | 0 <= i < |a|
      ensures part[i] == whole[i]
    {
      assert a[i] == (a + b)[i];
    }
  }

  /** What the multi-selection library returns. */
  datatype PickResult = PickCancelled | Picked(uris: seq<string>)

  class MultiImageCompressorState {
    var imageUris: seq<string>
    /** Every list handed to `onImagesCompressed`, in order. */
    var notifications: seq<seq<CompressedImage>>
    /** How many times the compression error was alerted. */
    var alerts: nat

    constructor ()
      ensures imageUris == [] && notifications == [] && alerts == 0
    {
      imageUris, notifications, alerts := [], [], 0;
    }

    /** A pick appends the new URIs after the old ones and compresses the old list followed by
        the new URIs: the parent receives the whole result, or an alert is shown and the
        parent hears nothing. A cancelled pick changes nothing. */
    method PickImages(pick: PickResult, base64Of: string -> Option<string>, clock: nat -> nat)
      modifies this`imageUris, this`notifications, this`alerts
      ensures pick.PickCancelled? ==>
                imageUris == old(imageUris) && notifications == old(notifications) && alerts == old(alerts)
      ensures pick.Picked? ==> imageUris == old(imageUris) + pick.uris
      ensures pick.Picked? ==>
                var result := Compress(old(imageUris) + pick.uris, base64Of, clock);
                && notifications == old(notifications) + (if result.Some? then [result.value] else [])
                && alerts == old(alerts) + (if result.None? then 1 else 0)
    {
      if pick.Picked? {
        var requested := imageUris + pick.uris;
        imageUris := imageUris + pick.uris;
        CompressImages(requested, base64Of, clock);
      }
    }

    method CompressImages(uris: seq<string>, base64Of: string -> Option<string>, clock: nat -> nat)
      modifies this`notifications, this`alerts
      ensures var result := Compress(uris, base64Of, clock);
              && notifications == old(notifications) + (if result.Some? then [result.value] else [])
              && alerts == old(alerts) + (if result.None? then 1 else 0)
    {
      var result := Compress(uris, base64Of, clock);
      if result.Some? {
        notifications := notifications + [result.value];
      } else {
        alerts := alerts + 1;
      }
    }

    /** Removing a URI drops every occurrence of it; the parent is not told, so the images it
        last received still include the removed one. */
    method RemoveImage(uri: string)
      modifies this`imageUris
      ensures imageUris == RemoveAll(old(imageUris), uri)
      ensures uri !in imageUris && IsSubsequence(imageUris, old(imageUris))
    {
      RemoveAllIsSubsequence(imageUris, uri);
      imageUris := RemoveAll(imageUris, uri);
    }
  }
}
