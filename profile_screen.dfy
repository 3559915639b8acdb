/** The partner's profile editor: the form record, the category toggle, the birth date
    reordering and the two-step update with its result message. */
module ProfileScreen {
  import opened Common
  import opened Text

  /** A value of the form record: text, a number, a flag, null, or undefined (a key that a
      destructuring read found missing). */
  datatype FormValue = Text(s: string) | Number(n: int) | Flag(b: bool) | Null | Undefined

  type FormData = map<string, FormValue>

  function Lookup(fd: FormData, key: string): (v: FormValue)
    ensures key !in fd ==> v == Undefined
    ensures key in fd ==> v == fd[key]
  {
    if key in fd then fd[key] else Undefined
  }

  // ---------------------------------------------------------------- birth date

  /** `const [day, month, year] = s.split('-'); return `${year}-${month}-${day}``: the first and
      third segments swap places; a missing segment renders as `undefined`. */
  function SwapDateParts(s: string): string
  {
    var parts := Split(s, '-');
    var month := if |parts| >= 2 then parts[1] else "undefined";
    var year := if |parts| >= 3 then parts[2] else "undefined";
    year + "-" + month + "-" + parts[0]
  }

  /** Three hyphen-free fields come out in reverse order. */
  lemma SwapThree(d: string, m: string, y: string)
    requires '-' !in d && '-' !in m && '-' !in y
    ensures SwapDateParts(d + "-" + m + "-" + y) == y + "-" + m + "-" + d
  {
    SplitThree(d, m, y, '-');
  }

  /** On three hyphen-free fields the reordering is its own inverse. */
  lemma SwapTwice(d: string, m: string, y: string)
    requires '-' !in d && '-' !in m && '-' !in y
    ensures SwapDateParts(SwapDateParts(d + "-" + m + "-" + y)) == d + "-" + m + "-" + y
  {
    SwapThree(d, m, y);
    SwapThree(y, m, d);
  }

  /** Text without hyphens becomes the day, with `undefined` for month and year. */
  lemma SwapNoHyphen(s: string)
    requires '-' !in s
    ensures SwapDateParts(s) == "undefined-undefined-" + s
  {
    SplitNoSeparator(s, '-');
  }

  /** The text the date handlers build from a picked date: day, month and year without
      padding, then reordered. */
  function BirthDate(day: nat, month: nat, year: nat): string
  {
    SwapDateParts(NatToString(day) + "-" + NatToString(month) + "-" + IntToString(year))
  }

  /** The stored birth date is year, month and day, each as its plain decimal rendering, so
      a day or month below 10 has a single digit. */
  lemma BirthDateShape(day: nat, month: nat, year: nat)
    ensures BirthDate(day, month, year) ==
              NatToString(year) + "-" + NatToString(month) + "-" + NatToString(day)
    ensures Split(BirthDate(day, month, year), '-') ==
              [NatToString(year), NatToString(month), NatToString(day)]
    ensures day < 10 ==> |NatToString(day)| == 1
  {
    NoHyphenInNat(day);
    NoHyphenInNat(month);
    NoHyphenInNat(year);
    SwapThree(NatToString(day), NatToString(month), NatToString(year));
    SplitThree(NatToString(year), NatToString(month), NatToString(day), '-');
    if day < 10 {
      assert NatToString(day) == [DigitChar(day)];
    }
  }

  lemma NoHyphenInNat(n: nat)
    ensures '-' !in NatToString(n)
  {
    var s := NatToString(n);
    assert forall i :: 0 <= i < |s| ==> IsDigit(s[i]);
  }

  // ---------------------------------------------------------------- update payloads

  /** `image_data && image_data.startsWith('http') ? null : image_data`: an image that is
      already a URL is not re-sent. */
  function ImageToSend(v: FormValue): (r: FormValue)
    ensures v.Text? && StartsWith(v.s, "http") ==> r == Null
    ensures !(v.Text? && StartsWith(v.s, "http")) ==> r == v
  {
    if v.Text? && v.s != "" && StartsWith(v.s, "http") then Null else v
  }

  const PartnerKeys: set<string> := {"address", "contact_info", "business_type"}

  /** The user update body: the form without the partner fields, with `image_data` replaced by
      the image to send and `user_id` put back. */
  function UserPayload(fd: FormData): (r: FormData)
    ensures r.Keys == (fd.Keys - PartnerKeys) + {"image_data", "user_id"}
    ensures r["image_data"] == ImageToSend(Lookup(fd, "image_data"))
    ensures r["user_id"] == Lookup(fd, "user_id")
    ensures forall k :: k in fd && k !in PartnerKeys && k != "image_data" ==> r[k] == fd[k]
  {
    var rest := fd - PartnerKeys - {"user_id", "image_data"};
    rest["image_data" := ImageToSend(Lookup(fd, "image_data"))]["user_id" := Lookup(fd, "user_id")]
  }

  /** The partner update body: the three partner fields and the selected categories. */
  datatype PartnerUpdate = PartnerUpdate(userId: FormValue, address: FormValue,
                                         contactInfo: FormValue, businessType: FormValue,
                                         categoryIds: seq<nat>)

  function PartnerPayload(fd: FormData, categories: seq<nat>): (r: PartnerUpdate)
    ensures r.userId == Lookup(fd, "user_id") && r.address == Lookup(fd, "address")
    ensures r.contactInfo == Lookup(fd, "contact_info")
    ensures r.businessType == Lookup(fd, "business_type")
    ensures r.categoryIds == categories
  {
    PartnerUpdate(Lookup(fd, "user_id"), Lookup(fd, "address"), Lookup(fd, "contact_info"),
                  Lookup(fd, "business_type"), categories)
  }

  // ---------------------------------------------------------------- result message

  const SuccessMessage := "Datos actualizados con éxito"
  const CategoriesErrorMessage := "Error al actualizar las categorías"
  const DataErrorMessage := "Error al actualizar los datos"

  /** The message and error flag after the user update and, when it was sent, the partner
      update. An exception at either step, including reading the status of an undefined
      response, lands in the catch with the data error. */
  function UpdateMessage(userResult: CallResult, partnerResult: CallResult): (r: (string, bool))
  {
    if userResult != Status(200) then (DataErrorMessage, true)
    else if partnerResult == Status(200) then (SuccessMessage, false)
    else if partnerResult.Thrown? then (DataErrorMessage, true)
    else (CategoriesErrorMessage, true)
  }

  /** Success exactly when both calls return 200; the categories message exactly when the
      first returns 200 and the second returns another status; the data message otherwise.
      The error flag is set on every message but success. */
  lemma UpdateMessageCases(userResult: CallResult, partnerResult: CallResult)
    ensures UpdateMessage(userResult, partnerResult).0 == SuccessMessage <==>
              userResult == Status(200) && partnerResult == Status(200)
    ensures UpdateMessage(userResult, partnerResult).0 == CategoriesErrorMessage <==>
              userResult == Status(200) && partnerResult.Status? && partnerResult.code != 200
    ensures UpdateMessage(userResult, partnerResult).0 == DataErrorMessage <==>
              userResult != Status(200) || partnerResult.Thrown?
    ensures UpdateMessage(userResult, partnerResult).1 <==>
              UpdateMessage(userResult, partnerResult).0 != SuccessMessage
  {
    assert SuccessMessage[0] != DataErrorMessage[0];
    assert SuccessMessage[0] != CategoriesErrorMessage[0];
    assert CategoriesErrorMessage[21] != DataErrorMessage[21];
  }

  // ---------------------------------------------------------------- the screen

  class ProfileScreenState {
    var formData: FormData
    var selectedCategories: seq<nat>
    var isEditing: bool
    var modalVisible: bool
    var modalMessage: string
    var modalError: bool
    /** The bodies sent by `updateUserAction` and `updatePartner`, in order. */
    var userUpdates: seq<FormData>
    var partnerUpdates: seq<PartnerUpdate>

    constructor (initial: FormData, userCategoryIds: seq<nat>)
      ensures formData == initial && selectedCategories == userCategoryIds
      ensures !isEditing && !modalVisible && modalMessage == "" && !modalError
      ensures userUpdates == [] && partnerUpdates == []
    {
      formData, selectedCategories := initial, userCategoryIds;
      isEditing, modalVisible, modalMessage, modalError := false, false, "", false;
      userUpdates, partnerUpdates := [], [];
    }

    /** Sets one field of the form record to the text; every other field is kept. */
    method HandleInputChange(field: string, value: string)
      modifies this`formData
      ensures formData == old(formData)[field := Text(value)]
      ensures forall k :: k in old(formData) && k != field ==> k in formData && formData[k] == old(formData)[k]
    {
      formData := formData[field := Text(value)];
    }

    /** A picked date, reordered into `birth_date`; a dismissed picker changes nothing. */
    method HandleDateChange(picked: Option<(nat, nat, nat)>)
      modifies this`formData
      ensures picked.None? ==> formData == old(formData)
      ensures picked.Some? ==>
                formData == old(formData)["birth_date" := Text(BirthDate(picked.value.0, picked.value.1 + 1, picked.value.2))]
    {
      if picked.Some? {
        var (day, monthIndex, year) := picked.value;
        HandleInputChange("birth_date", BirthDate(day, monthIndex + 1, year));
      }
    }

    /** The store's categories changed: the selection becomes their ids. */
    method CategoriesChanged(userCategoryIds: seq<nat>)
      modifies this`selectedCategories
      ensures selectedCategories == userCategoryIds
    {
      selectedCategories := userCategoryIds;
    }

    method HandleCategoryChange(id: nat)
      modifies this`selectedCategories
      ensures selectedCategories == Toggle(old(selectedCategories), id)
    {
      if id in selectedCategories {
        selectedCategories := RemoveAll(selectedCategories, id);
      } else {
        selectedCategories := selectedCategories + [id];
      }
    }

    /** Save. The user update is always sent; the partner update only after a 200; the
        message follows `UpdateMessage`; editing ends and the result modal opens on every path. */
    method HandleUpdate(userResult: CallResult, partnerResult: CallResult)
      modifies this`userUpdates, this`partnerUpdates, this`modalMessage, this`modalError,
               this`isEditing, this`modalVisible
      ensures userUpdates == old(userUpdates) + [UserPayload(formData)]
      ensures partnerUpdates == old(partnerUpdates) +
                (if userResult == Status(200) then [PartnerPayload(formData, selectedCategories)] else [])
      ensures (modalMessage, modalError) == UpdateMessage(userResult, partnerResult)
      ensures !isEditing && modalVisible
    {
      var userBody := UserPayload(formData);
      userUpdates := userUpdates + [userBody];
      if userResult == Status(200) {
        var partnerBody := PartnerPayload(formData, selectedCategories);
        partnerUpdates := partnerUpdates + [partnerBody];
      }
      modalMessage, modalError := UpdateMessage(userResult, partnerResult).0, UpdateMessage(userResult, partnerResult).1;
      isEditing := false;
      modalVisible := true;
    }
  }
}
