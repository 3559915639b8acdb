/** The branch editor: fields initialised from the branch passed in, the single picked image
    and its file name, the map selection, and the submit that chooses between updating and
    adding a branch. */
module BranchForm {
  import opened Common
  import opened Text

  /** A branch as the form receives it. Coordinates are the decimal text of the stored numbers;
      an absent field is `None`. */
  datatype Branch = Branch(
    branchId: nat,
    name: Option<string>,
    address: Option<string>,
    latitude: Option<string>,
    longitude: Option<string>,
    description: Option<string>,
    imageUrl: Option<string>)

  /** `value || ''` on an optional text. */
  function OrEmpty(o: Option<string>): (r: string)
    ensures o.Some? ==> r == o.value
    ensures o.None? ==> r == ""
  {
    if o.Some? then o.value else ""
  }

  // ---------------------------------------------------------------- picked image

  const DefaultFileName := "default_filename.jpg"

  /** `uri.split('/').pop() || 'default_filename.jpg'`. */
  function FileNameFromUri(uri: string): string
  {
    var last := LastSegment(uri, '/');
    if last == "" then DefaultFileName else last
  }

  /** The file name is the text after the last `/`; it falls back to the default exactly when
      that text is empty, that is when the URI is empty or ends with `/`. It never contains a
      `/`, and a URI without `/` is its own file name. */
  lemma FileNameCases(uri: string)
    ensures '/' !in FileNameFromUri(uri)
    ensures FileNameFromUri(uri) != ""
    ensures LastSegment(uri, '/') == "" <==> uri == "" || uri[|uri| - 1] == '/'
    ensures |LastSegment(uri, '/')| <= |uri|
    ensures LastSegment(uri, '/') != "" ==>
              && FileNameFromUri(uri) == LastSegment(uri, '/')
              && uri[|uri| - |LastSegment(uri, '/')|..] == FileNameFromUri(uri)
    ensures uri != "" && '/' !in uri ==> FileNameFromUri(uri) == uri
  {
    var last := LastSegment(uri, '/');
    LastSegmentSuffix(uri, '/');
    assert '/' !in last;
    if last != "" && uri != "" {
      assert uri[|uri| - 1] == last[|last| - 1];
    }
    if uri != "" && '/' !in uri {
      LastSegmentWhole(uri, '/');
    }
  }

  /** What the image library returns. */
  datatype PickResult = PickCancelled | Picked(uri: string, base64: Option<string>)

  /** The data sent with the branch: the first image's data when there is one with non-empty
      data. */
  function ImageDataOf(images: seq<CompressedImage>): (r: Option<string>)
    ensures r.Some? <==> |images| > 0 && images[0].data != ""
    ensures r.Some? ==> r.value == images[0].data
  {
    if |images| > 0 && images[0].data != "" then Some(images[0].data) else None
  }

  // ---------------------------------------------------------------- payload

  /** The body of `addBranch` / `updateBranch`. The coordinates are the field texts that
      `parseFloat` is applied to. */
  datatype BranchCreate = BranchCreate(
    partnerId: nat,
    name: string,
    address: string,
    description: string,
    latitude: string,
    longitude: string,
    statusId: nat,
    imageData: Option<string>)

  datatype BranchRequest = AddBranch(data: BranchCreate) | UpdateBranch(branchId: nat, data: BranchCreate)

  /** How a submit ends: no user (the exception escapes before the `try`), a null branch (the
      exception is caught and alerted), an update, or an addition. */
  datatype SubmitOutcome = UserMissing | NullBranch | Updated | Added

  /** What the image area renders. Reading `image_url` of a null branch, or the length of a
      missing `image_url`, throws during rendering. */
  datatype ImageView = ImageData(data: string) | ImageUrl(url: string) | NoImage | RenderCrash

  function RenderedImage(images: seq<CompressedImage>, branch: Option<Branch>): (r: ImageView)
    ensures |images| > 0 ==> r == ImageData(images[0].data)
    ensures r == RenderCrash <==> |images| == 0 && (branch.None? || branch.value.imageUrl.None?)
    ensures r == NoImage <==> |images| == 0 && branch.Some? && branch.value.imageUrl == Some("")
  {
    if |images| > 0 then ImageData(images[0].data)
    else if branch.None? || branch.value.imageUrl.None? then RenderCrash
    else if branch.value.imageUrl.value == "" then NoImage
    else ImageUrl(branch.value.imageUrl.value)
  }

  class BranchFormState {
    const branch: Option<Branch>
    var name: string
    var address: string
    var latitude: string
    var longitude: string
    var images: seq<CompressedImage>
    var description: string
    var isLoading: bool
    var isEditing: bool
    /** Every branch request dispatched, in order. */
    var requests: seq<BranchRequest>
    /** How many times `onClose` was called after a save. */
    var closeCount: nat

    /** The body for the current fields and the given user. */
    function Payload(userId: nat): (r: BranchCreate)
      reads this`name, this`address, this`description, this`latitude, this`longitude, this`images
      ensures r.partnerId == userId && r.statusId == 1
      ensures r.name == name && r.address == address && r.description == description
      ensures r.latitude == latitude && r.longitude == longitude
      ensures r.imageData == ImageDataOf(images)
    {
      BranchCreate(userId, name, address, description, latitude, longitude, 1, ImageDataOf(images))
    }

    /** The fields start from the branch with `|| ''`; there is no image and editing is off. */
    constructor (b: Option<Branch>)
      ensures branch == b
      ensures name == (if b.Some? then OrEmpty(b.value.name) else "")
      ensures address == (if b.Some? then OrEmpty(b.value.address) else "")
      ensures latitude == (if b.Some? then OrEmpty(b.value.latitude) else "")
      ensures longitude == (if b.Some? then OrEmpty(b.value.longitude) else "")
      ensures description == (if b.Some? then OrEmpty(b.value.description) else "")
      ensures images == [] && !isLoading && !isEditing && requests == [] && closeCount == 0
    {
      branch := b;
      if b.Some? {
        name, address := OrEmpty(b.value.name), OrEmpty(b.value.address);
        latitude, longitude := OrEmpty(b.value.latitude), OrEmpty(b.value.longitude);
        description := OrEmpty(b.value.description);
      } else {
        name, address, latitude, longitude, description := "", "", "", "", "";
      }
      images, isLoading, isEditing := [], false, false;
      requests, closeCount := [], 0;
    }

    method StartEditing()
      modifies this`isEditing
      ensures isEditing
    {
      isEditing := true;
    }

    method SetName(text: string)
      modifies this`name
      ensures name == text
    {
      name := text;
    }

    method SetAddress(text: string)
      modifies this`address
      ensures address == text
    {
      address := text;
    }

    method SetDescription(text: string)
      modifies this`description
      ensures description == text
    {
      description := text;
    }

    method SetLatitude(text: string)
      modifies this`latitude
      ensures latitude == text
    {
      latitude := text;
    }

    method SetLongitude(text: string)
      modifies this`longitude
      ensures longitude == text
    {
      longitude := text;
    }

    /** A picked image replaces the list with that one image, named after the URI and with
        its data or the empty text; a cancelled pick changes nothing. */
    method HandleImagePick(pick: PickResult)
      modifies this`images
      ensures pick.PickCancelled? ==> images == old(images)
      ensures pick.Picked? ==>
                images == [CompressedImage(FileNameFromUri(pick.uri), OrEmpty(pick.base64))]
    {
      if !pick.PickCancelled? {
        images := [CompressedImage(FileNameFromUri(pick.uri), OrEmpty(pick.base64))];
      }
    }

    /** A branch picked on the map while editing: its coordinates are copied into the two
        fields. Outside editing the map ignores the selection. */
    method HandleMapSelection(selectedLatitude: string, selectedLongitude: string)
      modifies this`latitude, this`longitude
      ensures isEditing ==> latitude == selectedLatitude && longitude == selectedLongitude
      ensures !isEditing ==> latitude == old(latitude) && longitude == old(longitude)
    {
      if isEditing {
        latitude, longitude := selectedLatitude, selectedLongitude;
      }
    }

    /** Submit. Loading is switched on first. Without a user, reading its id throws before the
        `try` and loading stays on. With a null branch, reading its id throws inside the `try`:
        an error alert, nothing sent. Otherwise the update is sent when the branch id is truthy
        and the addition when it is not, the form closes, and loading is off again. */
    method HandleSubmit(userId: Option<nat>) returns (outcome: SubmitOutcome)
      modifies this`isLoading, this`requests, this`closeCount
      ensures userId.None? <==> outcome == UserMissing
      ensures userId.Some? ==>
                outcome == if branch.None? then NullBranch
                           else if branch.value.branchId != 0 then Updated
                           else Added
      ensures outcome == UserMissing ==>
                isLoading && requests == old(requests) && closeCount == old(closeCount)
      ensures outcome == NullBranch ==>
                !isLoading && requests == old(requests) && closeCount == old(closeCount)
      ensures outcome == Updated ==>
                && requests == old(requests) + [UpdateBranch(branch.value.branchId, Payload(userId.value))]
                && !isLoading && closeCount == old(closeCount) + 1
      ensures outcome == Added ==>
                && requests == old(requests) + [AddBranch(Payload(userId.value))]
                && !isLoading && closeCount == old(closeCount) + 1
    {
      isLoading := true;
      if userId.None? {
        return UserMissing;
      }
      var data := Payload(userId.value);
      if branch.None? {
        outcome := NullBranch;
      } else if branch.value.branchId != 0 {
        requests := requests + [UpdateBranch(branch.value.branchId, data)];
        closeCount := closeCount + 1;
        outcome := Updated;
      } else {
        requests := requests + [AddBranch(data)];
        closeCount := closeCount + 1;
        outcome := Added;
      }
      isLoading := false;
    }
  }
}
