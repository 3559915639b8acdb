# A verified model of the partner app's screen logic

The partner app is a React Native client. Businesses use it to redeem customer promotions
by scanning a QR code, manage their promotions and branches, and edit their profile. This
project models the decision logic and the small state machines inside its screens and
components. Each source file has one Dafny module:

- `ScanMe`: the redemption session of the QR scanner screen. It covers the camera,
  modal and timer flags, the list of eligible promotions, the decoding of the scanned
  payload, the per-keystroke quantity bound, the confirm guard with the record it sends,
  the reset on success and cancel, and the terms-of-service flag.
- `PromotionsScreen`: the partner's promotion list. It covers the "not deleted" view, the
  filter chain (preferences, categories, keyword, start date, end date), the category
  toggle, clear-filters, the soft delete, the create gate and the `DD-MM-YYYY` label.
- `EditPromotionForm` and `PromotionForm`: the submit guard chains, the loading flag, the
  payloads and the image and category bookkeeping.
- `ProfileScreen`: the form record, the birth-date reordering, the split of the form
  into the user and partner bodies, and the choice of the result message.
- `CategoryPicker`: the local selection with save and cancel.
- `LoginScreen`: email normalisation and the login guard chain.
- `PromotionCard`: the delete confirmation, the availability label and the card image.
- `BranchForm`: the fields, the picked image and its file name, the map selection, and
  the choice between adding and updating a branch.
- `MultiImageCompressor`: the URI list and the all-or-nothing compression.
- `MapSingle`: the five-star row, the initial search location and map presses.
- `Branches`: view and create selection, and the create path into `BranchForm`.
- `MainAppScreen`: the route-to-icon table, the focus highlight and the tab listeners.
- `AppNavigator`: the authenticated and unauthenticated screen sets and the initial route.

Two shared modules sit underneath:

- `Common` holds the records (promotion, status, image, partner), JavaScript truthiness on
  nullable numbers, the first-match lookup of a status by name, a stable filter with its
  sublist and multiset lemmas, and the toggle of an id in a list.
- `Text` models the JavaScript string operations the screens use:
  - `split` on every separator, with its inverse `join`;
  - ASCII `trim` and `toLowerCase`;
  - `includes`;
  - decimal rendering;
  - `parseInt` (leading white space, a sign, the longest digit prefix, `NaN` when there
    are no digits);
  - `padStart`.

A component whose state the handlers update is a class. Its React state variables are the
class's fields, and each handler is a method with a `modifies` clause and an `ensures`
stating the whole new state. Pure expressions are functions, and what the source promises
about them is proved as lemmas.

Calls into the parent component, the store and the network are recorded in append-only
sequence fields, so that "nothing is sent" can be stated. Examples are `requests`,
`updates`, `deleted`, `saved`, `notifications` and `attempts`. Network results are
parameters: `CallResult` is a status code or a thrown exception, and `Settlement` says how
an awaited thunk settles. Dates are integers, and ids are natural numbers.

The six transient fields of a redemption are held in one `RedemptionForm` record field of
`ScanMe.RedemptionSession`. These are the selected promotion, quantity, amount,
description, scanned user and scanned email. The handlers assign that record field by
field with a datatype update, so each field still changes exactly as the source's setter
does.

Where a reader might expect other behaviour, the model follows the code:

- The scanned text is cut at every hyphen, and only the first two segments are used. The
  email is the second segment, not the rest of the text.
- An available quantity of 0 means unlimited.
- The filter chain starts from the full store list, so deleted promotions can appear
  again.
- A failed guard in the promotion creation form leaves `loading` on.
- Creating a branch from the branch list hands the form a null branch. The form then
  throws on its first render, since it has no images yet, so its submit button is never
  shown. A submit on that form would, if reached, end in the error alert without sending
  anything.
- The promotions screen defines the filter chain, the category toggle, clear-filters,
  the date handlers and the date label, but its rendered tree does not wire any of them
  up (PromotionsScreen.tsx:193-245). Only the create button and the cards' delete handler
  are reachable. The unwired handlers are modelled as defined.

## Model

| member | source | states |
|---|---|---|
| ScanMe.EligiblePromotions | src/screens/ScanMe.tsx:68-72 | a promotion is offered iff it is in the store, its status is named `active` and now lies between its start and expiration dates, both included |
| ScanMe.EligibleIsOrderedSublist | src/screens/ScanMe.tsx:68-72 | the offered list is a subsequence of the store list, and each eligible promotion keeps its multiplicity while an ineligible one disappears |
| ScanMe.ParseScanSegments | src/screens/ScanMe.tsx:204 | the user is the text before the first hyphen; the email is the text between the first and second hyphen (or to the end); the email is undefined iff there is no hyphen |
| ScanMe.ParseScanOfParts | src/screens/ScanMe.tsx:204 | `user-email` and `user-email-anything` decode to exactly that user and email, so anything after a second hyphen is dropped |
| ScanMe.QuantityRule | src/screens/ScanMe.tsx:272-279 | a typed number is refused iff the selected promotion's quantity is truthy and smaller; a null or zero quantity, text with no digits, and no selected promotion never refuse |
| ScanMe.UserRefOf | src/screens/ScanMe.tsx:225 | `scannedUser && parseInt(scannedUser)`: null stays null, the empty text stays empty, anything else is parsed |
| ScanMe.ConsumptionOf | src/screens/ScanMe.tsx:219-232 | a record is produced iff a promotion is selected and the quantity and amount are non-empty; the scanned user is not checked |
| ScanMe.ConsumptionOfFields | src/screens/ScanMe.tsx:217-232 | the record carries the selected promotion's id, the id of the first status named `active` (absent iff none is), the parsed quantity, the user reference, the time, the description and the amount |
| ScanMe.TermsPromptNeeded | src/screens/ScanMe.tsx:132-139 | the terms flag `isModalTermsVisible` is set for `terms: null`, or when the accepted version differs from the fetched current version, an undefined version on either side counting as a value of its own; never without a user or with `terms` undefined, and never before the current terms are fetched unless terms are null |
| ScanMe.RedemptionSession.constructor | src/screens/ScanMe.tsx:39-61 | no permission, camera, timer or modals; the form is empty, nothing has been refetched, no logout dispatched and no navigation made |
| ScanMe.RedemptionSession.PermissionResolved | src/screens/ScanMe.tsx:86-106 | permission is recorded once granted and never revoked; the camera invariant is kept |
| ScanMe.RedemptionSession.HandleQRScan | src/screens/ScanMe.tsx:190-199 | with permission the camera opens and its timer is armed; without permission it alerts and changes nothing |
| ScanMe.RedemptionSession.TimerFires | src/screens/ScanMe.tsx:193-195 | the pending timer closes the camera |
| ScanMe.RedemptionSession.HandleBarCodeScanned | src/screens/ScanMe.tsx:201-211 | the camera closes, the timer is disarmed, the form opens, and the scanned user and email are those of the decoded payload; the other form fields are kept |
| ScanMe.RedemptionSession.HandlePromotionSelect | src/screens/ScanMe.tsx:212-214 | the picker offers null or an eligible promotion (ScanMe.tsx:366-378); only the selected promotion changes, and a selected promotion is in the store and eligible now |
| ScanMe.RedemptionSession.HandleQuantityChange | src/screens/ScanMe.tsx:272-279 | a refused keystroke leaves the form unchanged; otherwise the raw text becomes the quantity |
| ScanMe.RedemptionSession.SetAmount | src/screens/ScanMe.tsx:405 | only the amount changes |
| ScanMe.RedemptionSession.SetDescription | src/screens/ScanMe.tsx:412 | only the description changes |
| ScanMe.RedemptionSession.HandleConfirm | src/screens/ScanMe.tsx:216-255 | a failed guard sends nothing and changes nothing; past it the record is sent and the modal closes on every result; only a 200 with a user in the store clears all six fields and refetches, while another status, an exception, or a null store user (whose id read throws before the reset) keeps them |
| ScanMe.RedemptionSession.HandleCancel | src/screens/ScanMe.tsx:257-265 | from any state the six fields are cleared and the modal closes |
| ScanMe.RedemptionSession.HandleCloseCamera | src/screens/ScanMe.tsx:266-271 | the camera closes and the timer is disarmed |
| ScanMe.RedemptionSession.TermsEffect | src/screens/ScanMe.tsx:132-139 | the terms flag is set when the condition holds, and is otherwise left as it was; the flag is never cleared by the effect |
| ScanMe.RedemptionSession.HandleAcceptTerms | src/screens/ScanMe.tsx:141-152 | a successful acceptance closes the modal and ends loading; a failed one leaves the modal open with loading on |
| ScanMe.RedemptionSession.HandleCancelTerms | src/screens/ScanMe.tsx:153-158 | the logout is dispatched, the terms modal closes, and exactly one navigation to `Login` is appended to the navigation log |
| PromotionsScreen.VisiblePromotions | src/screens/PromotionsScreen.tsx:69-72 | a promotion is shown iff it is in the store and its status is not named `deleted`; a promotion with no status is shown |
| PromotionsScreen.VisibleIsOrderedSublist | src/screens/PromotionsScreen.tsx:69-72 | the view is a subsequence of the store list, keeping every shown promotion's multiplicity |
| PromotionsScreen.FilterByCriteria | src/screens/PromotionsScreen.tsx:121-155 | a promotion passes iff it is in the full store list and meets every criterion that is set |
| PromotionsScreen.NoCriteriaKeepsAll | src/screens/PromotionsScreen.tsx:121-155 | with no criterion set the filter returns the whole store list |
| PromotionsScreen.FilterByCriteriaIsOrderedSublist | src/screens/PromotionsScreen.tsx:121-155 | the filtered list is a subsequence of the store list with each passing promotion's multiplicity |
| PromotionsScreen.DeletedCanReappear | src/screens/PromotionsScreen.tsx:69-155 | a deleted promotion that meets the criteria is in the filtered list although the default view hides it |
| PromotionsScreen.StageFilter | src/screens/PromotionsScreen.tsx:124-150 | a promotion passes the first n steps iff it is in the list and meets the first n criteria that are set |
| PromotionsScreen.StagePreferences | src/screens/PromotionsScreen.tsx:124-128 | the preferences step filters by user-category overlap when preferences apply, and is skipped otherwise |
| PromotionsScreen.StageCategories | src/screens/PromotionsScreen.tsx:129-134 | the categories step filters by overlap with the selection when it is non-empty, and is skipped otherwise |
| PromotionsScreen.StageKeyword | src/screens/PromotionsScreen.tsx:136-138 | the keyword step keeps the titles that contain the keyword, ignoring case, when a keyword is set, and is skipped otherwise |
| PromotionsScreen.StageStart | src/screens/PromotionsScreen.tsx:140-144 | the start step keeps the promotions starting on or after the start date when one is set |
| PromotionsScreen.StageEnd | src/screens/PromotionsScreen.tsx:146-150 | the end step keeps the promotions expiring on or before the end date when one is set, which completes the filter |
| PromotionsScreen.ChainIsFilter | src/screens/PromotionsScreen.tsx:121-155 | the five optional filter steps, run one after another, give exactly the conjunction of the set criteria |
| PromotionsScreen.FormatDateStringParts | src/screens/PromotionsScreen.tsx:78-83 | the label of a calendar date splits into three parts: the day and month+1 as exactly two digits, then the year, each parsing back to its number |
| PromotionsScreen.PromotionsScreenState.constructor | src/screens/PromotionsScreen.tsx:32-42 | the list shown starts as the store list; no criteria, no modals, nothing deleted |
| PromotionsScreen.PromotionsScreenState.PromotionsChanged | src/screens/PromotionsScreen.tsx:69-72 | new store promotions replace the list shown with their non-deleted view |
| PromotionsScreen.PromotionsScreenState.HandleStartDateChange | src/screens/PromotionsScreen.tsx:85-92 | a picked date becomes the start bound; a dismissed picker keeps it |
| PromotionsScreen.PromotionsScreenState.HandleEndDateChange | src/screens/PromotionsScreen.tsx:94-101 | a picked date becomes the end bound; a dismissed picker keeps it |
| PromotionsScreen.PromotionsScreenState.SetKeyword | src/screens/PromotionsScreen.tsx:34 | only the keyword changes |
| PromotionsScreen.PromotionsScreenState.SetFilterByPreferences | src/screens/PromotionsScreen.tsx:37 | only the preferences switch changes |
| PromotionsScreen.PromotionsScreenState.ToggleCategory | src/screens/PromotionsScreen.tsx:111-119 | the selection becomes the toggle of the id |
| PromotionsScreen.PromotionsScreenState.ApplyFilters | src/screens/PromotionsScreen.tsx:121-155 | the list shown becomes the filter of the full store list by the current criteria; loading ends and the modal closes |
| PromotionsScreen.PromotionsScreenState.ClearFilters | src/screens/PromotionsScreen.tsx:157-164 | categories, keyword, both dates and preferences are reset and the full store list is shown |
| PromotionsScreen.PromotionsScreenState.HandleDeletePromotion | src/screens/PromotionsScreen.tsx:171-181 | one delete request with the id of the first status named `deleted`; nothing when no status has that name |
| PromotionsScreen.PromotionsScreenState.HandleCreatePress | src/screens/PromotionsScreen.tsx:186-192 | it alerts iff the partner is known and has no branch, otherwise the create modal opens; a null partner opens it |
| Common.FindIdByName | src/screens/PromotionsScreen.tsx:173 | the lookup is absent iff no status has the name; otherwise it is the id of the first status with that name |
| Common.FirstBranchGuard | src/components/EditPromotionForm.tsx:55 | `!user?.user_id \|\| !partner?.branches[0].branch_id` blocks on a falsy user id or a null partner, throws for a partner without branches, and otherwise yields the first branch's id |
| Common.ToggleFlips | src/components/CategoryPicker.tsx:25-31 | the toggled id flips membership, every other id keeps its membership, and an absent id is appended at the end |
| Common.ToggleKeepsOrder | src/screens/ProfileScreen.tsx:166-174 | removing a present id shortens the list and keeps the remaining ids in order |
| Common.ToggleTwiceAbsent | src/components/CategoryPicker.tsx:25-31 | toggling an absent id twice restores the original list |
| Common.RemoveAllIsSubsequence | src/components/MultiImageCompressor.tsx:57-59 | removing every occurrence of a value keeps what remains in order |
| EditPromotionForm.OrNull | src/components/EditPromotionForm.tsx:31-32 | `value \|\| null`: a null or zero number becomes null, and any other value is kept |
| EditPromotionForm.WithoutImage | src/components/EditPromotionForm.tsx:52 | the images left are exactly those whose id differs from the deleted one |
| EditPromotionForm.WithoutImageIsOrderedSublist | src/components/EditPromotionForm.tsx:52 | the remaining images keep their order and multiplicity |
| EditPromotionForm.EditPromotionFormState.Payload | src/components/EditPromotionForm.tsx:66-79 | the body carries the first branch id, the fields as typed, the dates only where picked, the user id as partner id, the categories, and only the newly added images |
| EditPromotionForm.EditPromotionFormState.constructor | src/components/EditPromotionForm.tsx:29-42 | title and description come from the promotion; discount and quantity are its values with a falsy value as null; its images and category ids are kept in order; no dates, no new images, nothing deleted |
| EditPromotionForm.EditPromotionFormState.HandleImagesCompressed | src/components/EditPromotionForm.tsx:43-45 | the new images are replaced by the compressed list |
| EditPromotionForm.EditPromotionFormState.HandleSelectCategories | src/components/EditPromotionForm.tsx:47-49 | the selection is replaced by the given ids |
| EditPromotionForm.EditPromotionFormState.HandleDeleteImage | src/components/EditPromotionForm.tsx:50-53 | the id is appended to the ids to delete, and every existing image with that id is removed |
| EditPromotionForm.EditPromotionFormState.SetTitle | src/components/EditPromotionForm.tsx:149 | only the title changes |
| EditPromotionForm.EditPromotionFormState.SetDescription | src/components/EditPromotionForm.tsx:156 | only the description changes |
| EditPromotionForm.EditPromotionFormState.SetDiscount | src/components/EditPromotionForm.tsx:165 | only the discount changes |
| EditPromotionForm.EditPromotionFormState.SetAvailableQuantity | src/components/EditPromotionForm.tsx:173 | only the quantity changes |
| EditPromotionForm.EditPromotionFormState.HandleStartDateChange | src/components/EditPromotionForm.tsx:100-109 | a picked date replaces the start date; a dismissed picker keeps it |
| EditPromotionForm.EditPromotionFormState.HandleEndDateChange | src/components/EditPromotionForm.tsx:111-120 | a picked date replaces the end date; a dismissed picker keeps it |
| EditPromotionForm.EditPromotionFormState.HandleSubmit | src/components/EditPromotionForm.tsx:54-98 | the id guard comes first and a partner without branches throws there; the fields guard needs title, description, a discount and a category, but not dates or images; both guards change nothing; with no promotion id nothing is sent and loading ends; otherwise exactly one update is sent with the payload and the image ids to delete, and the form closes when it resolves |
| PromotionForm.PromotionFormState.Payload | src/components/PromotionForm.tsx:60-71 | the body carries the first branch id, the fields, both dates, the discount, the quantity (possibly null), the user id as partner id, the categories and all picked images |
| PromotionForm.PromotionFormState.constructor | src/components/PromotionForm.tsx:28-39 | every field starts empty or null, not loading, nothing created |
| PromotionForm.PromotionFormState.HandleImagesCompressed | src/components/PromotionForm.tsx:40-42 | the images are replaced by the compressed list |
| PromotionForm.PromotionFormState.HandleSelectCategories | src/components/PromotionForm.tsx:43-47 | the selection is replaced wholesale |
| PromotionForm.PromotionFormState.SetTitle | src/components/PromotionForm.tsx:130 | only the title changes |
| PromotionForm.PromotionFormState.SetDescription | src/components/PromotionForm.tsx:136 | only the description changes |
| PromotionForm.PromotionFormState.SetDiscount | src/components/PromotionForm.tsx:144 | only the discount changes |
| PromotionForm.PromotionFormState.SetAvailableQuantity | src/components/PromotionForm.tsx:151 | only the quantity changes |
| PromotionForm.PromotionFormState.HandleStartDateChange | src/components/PromotionForm.tsx:87-96 | a picked date replaces the start date; a dismissed picker keeps it |
| PromotionForm.PromotionFormState.HandleEndDateChange | src/components/PromotionForm.tsx:98-107 | a picked date replaces the end date; a dismissed picker keeps it |
| PromotionForm.PromotionFormState.HandleSubmit | src/components/PromotionForm.tsx:49-85 | loading is switched on before any guard, and a failed guard sends nothing and leaves it on; every field, including both dates, a category and an image, is required; past the guards exactly one create is sent; only a resolved dispatch ends loading and closes the form |
| ProfileScreen.Lookup | src/screens/ProfileScreen.tsx:126 | reading a missing key of the form record gives undefined |
| ProfileScreen.SwapThree | src/screens/ProfileScreen.tsx:91-94 | three hyphen-free fields `d-m-y` come out as `y-m-d` |
| ProfileScreen.SwapTwice | src/screens/ProfileScreen.tsx:91-94 | on three hyphen-free fields the reordering is its own inverse |
| ProfileScreen.SwapNoHyphen | src/screens/ProfileScreen.tsx:91-94 | text without a hyphen becomes `undefined-undefined-` followed by the text |
| ProfileScreen.BirthDateShape | src/screens/ProfileScreen.tsx:100-104 | the stored birth date is year, month and day, each as its unpadded decimal text, so a day below 10 has one digit |
| ProfileScreen.ImageToSend | src/screens/ProfileScreen.tsx:129 | an image text starting with `http` is sent as null; any other value is sent unchanged |
| ProfileScreen.UserPayload | src/screens/ProfileScreen.tsx:126-133 | the user body has the form's keys without the partner fields, plus `image_data` and `user_id`; `image_data` follows the rule above, and every other kept field is unchanged |
| ProfileScreen.PartnerPayload | src/screens/ProfileScreen.tsx:137-142 | the partner body carries the user id, address, contact info, business type and the selected categories |
| ProfileScreen.UpdateMessageCases | src/screens/ProfileScreen.tsx:145-159 | the success message iff both calls return 200; the categories message iff only the second returns another status; the data message otherwise, exceptions included; the error flag is set on every message except success |
| ProfileScreen.ProfileScreenState.constructor | src/screens/ProfileScreen.tsx:50-74 | the form record and the selection are as given; not editing, no modal, no update sent |
| ProfileScreen.ProfileScreenState.HandleInputChange | src/screens/ProfileScreen.tsx:79-84 | exactly the named field becomes the text, and every other field is kept |
| ProfileScreen.ProfileScreenState.HandleDateChange | src/screens/ProfileScreen.tsx:96-106 | a picked date is stored in `birth_date` as the reordered unpadded date; a dismissed picker changes nothing |
| ProfileScreen.ProfileScreenState.CategoriesChanged | src/screens/ProfileScreen.tsx:45-47 | the selection becomes the store's category ids |
| ProfileScreen.ProfileScreenState.HandleCategoryChange | src/screens/ProfileScreen.tsx:166-174 | the selection becomes the toggle of the id |
| ProfileScreen.ProfileScreenState.HandleUpdate | src/screens/ProfileScreen.tsx:124-164 | the user body is always sent; the partner body is sent only after a 200; the message and error flag follow the message rule; editing ends and the modal is shown on every outcome |
| CategoryPicker.CheckedFlags | src/components/CategoryPicker.tsx:44-49 | one checkbox per category, checked iff its id is in the local selection |
| CategoryPicker.ToggleFlipsChecked | src/components/CategoryPicker.tsx:25-47 | toggling an id flips exactly the checkboxes of the categories with that id |
| CategoryPicker.CategoryPickerState.constructor | src/components/CategoryPicker.tsx:19 | the local selection starts as the prop |
| CategoryPicker.CategoryPickerState.PropChanged | src/components/CategoryPicker.tsx:21-23 | a new prop resets the local selection to it |
| CategoryPicker.CategoryPickerState.HandleCategoryChange | src/components/CategoryPicker.tsx:25-31 | the local selection becomes its toggle; the toggled id flips, and every other id keeps its checked state |
| CategoryPicker.CategoryPickerState.HandleSave | src/components/CategoryPicker.tsx:33-36 | the local selection is passed to the parent once, then the picker closes |
| CategoryPicker.CategoryPickerState.HandleCancel | src/components/CategoryPicker.tsx:57 | the picker closes and the parent receives nothing |
| LoginScreen.NormalizeIdempotent | src/screens/LoginScreen.tsx:34 | trimming and lowercasing twice is the same as once |
| LoginScreen.NormalizeBlank | src/screens/LoginScreen.tsx:34-38 | an email of white space alone normalizes to the empty text, which the guard refuses |
| LoginScreen.LowerCharKeepsSpace | src/screens/LoginScreen.tsx:34 | lowercasing neither creates nor removes white space |
| LoginScreen.OutcomeOf | src/screens/LoginScreen.tsx:33-75 | empty fields iff the normalized email or the password is empty; logged in iff the reply is a user whose status is `active` and who holds the `associated` role; failed iff the reply is an error; inactive iff the reply is a user whose status is not `active`, whatever its roles, since the status is checked first; not associated iff the user is active but lacks the `associated` role |
| LoginScreen.LoginScreenState.constructor | src/screens/LoginScreen.tsx:22-28 | empty fields, no error, not loading, no modal, nothing sent |
| LoginScreen.LoginScreenState.SetEmail | src/screens/LoginScreen.tsx:93 | only the email changes |
| LoginScreen.LoginScreenState.SetPassword | src/screens/LoginScreen.tsx:103 | only the password changes |
| LoginScreen.LoginScreenState.ToggleModal | src/screens/LoginScreen.tsx:29-31 | the modal's visibility flips |
| LoginScreen.LoginScreenState.HandleLogin | src/screens/LoginScreen.tsx:33-80 | empty fields send nothing and change nothing, loading included; otherwise the normalized email and the password are sent once and loading ends; the two rejections keep the fields; success clears the fields and the error and schedules the navigation; an error clears the fields, stores and shows its message, and toggles the modal |
| LoginScreen.LoginScreenState.NavigationTimerFires | src/screens/LoginScreen.tsx:66-69 | the scheduled navigation hides the modal and opens the main screen once |
| PromotionCard.AvailabilityLabelCases | src/components/PromotionCard.tsx:86 | the label is `sin límite` iff the quantity is null or zero; otherwise it is the quantity's decimal text, which parses back to the quantity |
| PromotionCard.CardImage | src/components/PromotionCard.tsx:62-66 | the first image's path when there is an image, otherwise the placeholder |
| PromotionCard.PromotionCardState.constructor | src/components/PromotionCard.tsx:29-30 | no selection, modal hidden, nothing deleted |
| PromotionCard.PromotionCardState.ShowDeleteConfirmation | src/components/PromotionCard.tsx:37-40 | the card's own id (the only one the trash icon passes) is stored and the modal is shown; nothing is deleted |
| PromotionCard.PromotionCardState.ConfirmDelete | src/components/PromotionCard.tsx:42-47 | only from the visible modal: the stored id is deleted once when it is truthy, so id 0 never is; the modal is hidden and the stored id is kept; only the card's own id is ever deleted |
| PromotionCard.PromotionCardState.CancelDelete | src/components/PromotionCard.tsx:48-51 | the id is cleared and the modal hidden; nothing is deleted |
| BranchForm.OrEmpty | src/components/BranchForm.tsx:42-50 | `value \|\| ''`: a missing text becomes empty |
| BranchForm.FileNameCases | src/components/BranchForm.tsx:106 | the file name is the text after the last `/`, and it is the default name iff that text is empty, that is when the URI is empty or ends with `/`; it never contains `/` |
| BranchForm.ImageDataOf | src/components/BranchForm.tsx:64 | the first image's data is sent iff there is an image whose data is non-empty |
| BranchForm.RenderedImage | src/components/BranchForm.tsx:136-143 | a picked image is shown first; without one, rendering throws iff the branch or its `image_url` is missing, and shows nothing iff the URL is empty |
| BranchForm.BranchFormState.Payload | src/components/BranchForm.tsx:55-65 | the body carries the user id as partner id, the fields, status 1 and the image data rule |
| BranchForm.BranchFormState.constructor | src/components/BranchForm.tsx:42-50 | each field is the branch's value or the empty text; no image, not loading, not editing |
| BranchForm.BranchFormState.StartEditing | src/components/BranchForm.tsx:132 | editing is on |
| BranchForm.BranchFormState.SetName | src/components/BranchForm.tsx:158 | only the name changes |
| BranchForm.BranchFormState.SetAddress | src/components/BranchForm.tsx:173 | only the address changes |
| BranchForm.BranchFormState.SetDescription | src/components/BranchForm.tsx:188 | only the description changes |
| BranchForm.BranchFormState.SetLatitude | src/components/BranchForm.tsx:214 | only the latitude text changes |
| BranchForm.BranchFormState.SetLongitude | src/components/BranchForm.tsx:225 | only the longitude text changes |
| BranchForm.BranchFormState.HandleImagePick | src/components/BranchForm.tsx:95-109 | a pick replaces the images with one image named after the URI, holding its data or the empty text; a cancelled pick changes nothing |
| BranchForm.BranchFormState.HandleMapSelection | src/components/BranchForm.tsx:88-93 | while editing (the map's setter is a no-op otherwise), the selected branch's coordinates are copied into the fields; otherwise nothing changes |
| BranchForm.BranchFormState.HandleSubmit | src/components/BranchForm.tsx:52-86 | without a user, loading stays on and nothing is sent; with a null branch the error is caught, loading ends and nothing is sent; otherwise an update is sent iff the branch id is truthy and an add otherwise, the form closes, and loading ends |
| MultiImageCompressor.Compress | src/components/MultiImageCompressor.tsx:33-55 | all or nothing: no result iff some image has no base64; otherwise one image per URI, in order, with its base64 data and a name from its clock reading |
| MultiImageCompressor.CompressPrefix | src/components/MultiImageCompressor.tsx:28 | a successful compression of the old list plus new URIs begins with the compression of the old list |
| MultiImageCompressor.MultiImageCompressorState.constructor | src/components/MultiImageCompressor.tsx:13 | no URIs, nothing handed to the parent |
| MultiImageCompressor.MultiImageCompressorState.PickImages | src/components/MultiImageCompressor.tsx:15-31 | the picked URIs are appended after the old ones; compression runs over the old list followed by the new URIs; a cancelled pick changes nothing |
| MultiImageCompressor.MultiImageCompressorState.CompressImages | src/components/MultiImageCompressor.tsx:33-55 | the parent receives the whole result once, or an alert is shown and the parent receives nothing |
| MultiImageCompressor.MultiImageCompressorState.RemoveImage | src/components/MultiImageCompressor.tsx:57-59 | every occurrence of the URI is removed, the rest keeps its order, and the parent is not told |
| MapSingle.RenderStars | src/components/MapSingle.tsx:65-78 | exactly five icons, icon i being full iff i ≤ rating, half iff it exceeds the rating by at most one half, and outline otherwise |
| MapSingle.StarsShape | src/components/MapSingle.tsx:67-76 | the full stars form a prefix, at most one half star follows them, and the rest are outline |
| MapSingle.StarsExtremes | src/components/MapSingle.tsx:71 | a rating of 5 or more gives five full stars, and one below one half gives five outline stars |
| MapSingle.StarsHalfPoint | src/components/MapSingle.tsx:71 | a rating of n + 0.5 gives n full stars and then one half star |
| MapSingle.CoordinateOr | src/components/MapSingle.tsx:51-52 | `x \|\| fallback`: a null or zero coordinate is replaced by the fallback |
| MapSingle.InitialLocation | src/components/MapSingle.tsx:50-54 | each coordinate is the branch's, falling back to the initial region's when it is missing or zero; the address is the branch's or empty |
| MapSingle.WithCoordinates | src/components/MapSingle.tsx:60 | the selected branch has the new coordinates and keeps its other fields |
| MapSingle.MapSingleState.constructor | src/components/MapSingle.tsx:50-54 | the props are the mount-time ones, the search location starts at the initial location, and nothing is selected |
| MapSingle.MapSingleState.PropsChanged | src/components/MapSingle.tsx:35-54 | a re-render takes the new `branch` and `isEditing` props and keeps the local search location, whose initialiser ran only at mount; the selections are unchanged |
| MapSingle.MapSingleState.HandleMapPress | src/components/MapSingle.tsx:57-62 | while the current `isEditing` prop holds (the map has no press handler otherwise), the coordinates are replaced and the address kept, and the current branch prop with the new coordinates is selected; outside editing nothing changes |
| MapSingle.MapSingleState.PressMarker | src/components/MapSingle.tsx:93-96 | the marker, present only for a branch, selects the current branch prop unchanged |
| MapSingle.MountThenEdit | src/components/BranchForm.tsx:237-251 | mounted while not editing, a press selects nothing; after the parent switches editing on and re-renders with a rebuilt branch, a press selects the rebuilt branch, not the mount-time one, with the pressed coordinates |
| Branches.BranchesState.constructor | src/screens/Branches.tsx:14-15 | no selection, modal hidden |
| Branches.BranchesState.HandleView | src/screens/Branches.tsx:17-20 | the branch is selected and the modal shown |
| Branches.BranchesState.HandleCreate | src/screens/Branches.tsx:22-55 | reachable only while the create button is rendered, that is while the partner has no branch (Branches.tsx:54); the selection is null and the modal shown |
| Branches.BranchesState.CloseModal | src/screens/Branches.tsx:27-30 | the modal is hidden and the selection cleared |
| Branches.BranchesState.OpenForm | src/screens/Branches.tsx:61 | the form receives the selected branch and starts without images |
| Branches.CreateThenSubmit | src/screens/Branches.tsx:22-61 | only while the partner has no branch, the create button opens the form on a null branch, whose first render crashes (BranchForm.tsx:139), so its submit button never shows; a submit on that form, were it reached, would end in the null-branch error with nothing sent |
| MainAppScreen.FamilyOf | src/screens/MainAppScreen.tsx:47-68 | `QR-Scanner`, `Promociones`, `Ajustes` and `Sucursal` are drawn with MaterialIcons, MaterialCommunityIcons, SimpleLineIcons and Ionicons respectively, each library iff its route; every other route falls through to FontAwesome |
| MainAppScreen.IconNameCases | src/screens/MainAppScreen.tsx:24-38 | the default icon iff the route is not one of the five named routes, and distinct named routes get distinct icons |
| MainAppScreen.IconColor | src/screens/MainAppScreen.tsx:46-68 | the highlight colour iff the focused tab equals the route name, otherwise the given colour |
| MainAppScreen.OnlySucursalHighlights | src/screens/MainAppScreen.tsx:93-124 | of the four tabs, a listener's value matches a tab's route name only for `Sucursal` on itself |
| MainAppScreen.MainTabsState.constructor | src/screens/MainAppScreen.tsx:22 | no tab focused |
| MainAppScreen.MainTabsState.TabPress | src/screens/MainAppScreen.tsx:93-124 | pressing a tab focuses that tab's listener value |
| AppNavigator.HeaderOf | src/navigation/AppNavigator.tsx:53-79 | the custom header iff the screen is `MainAppScreen` |
| AppNavigator.NavigatorShape | src/navigation/AppNavigator.tsx:37-79 | the initial route is a registered screen; the screen sets of the two authentication states are disjoint; `Login` is registered iff not authenticated, and `Profile` iff authenticated |
| Text.JoinSplit | src/screens/ScanMe.tsx:204 | joining the parts of a split with the separator gives back the text |
| Text.SplitJoin | src/screens/ScanMe.tsx:204 | splitting a join of separator-free parts gives back the parts |
| Text.ContainsIff | src/screens/PromotionsScreen.tsx:137 | `includes` holds iff the needle occurs at some position |
| Text.ParseIntOfString | src/screens/ScanMe.tsx:273 | `parseInt` of an integer's decimal text is that integer |
| Text.ParseIntIgnoresSuffix | src/screens/ScanMe.tsx:273 | `parseInt` stops at the first non-digit |
| Text.Pad2Shape | src/screens/PromotionsScreen.tsx:79-80 | `padStart(2, '0')` of a number below 100 is two digits that parse back to it |
| Text.ToLowerIdempotent | src/screens/LoginScreen.tsx:34 | lowercasing twice is lowercasing once |

## Left out

- Network calls, the store and the thunks are not modelled; their results are parameters. `CallResult` is a status or an exception, and `Settlement` is how an awaited dispatch settles. The thunks catch their own errors, so only `Resolved` occurs in the app.
- Timers are flags. The 10-second camera timeout, the navigation delays and the animations are not modelled as elapsed time.
- Camera permission, the image picker, the image manipulator and the location API are represented only by their results: a granted flag, a pick result, and a base64 oracle `base64Of` with a clock oracle that stands in for `Date.now()` per image.
- `parseFloat` and `Number(text)` are not modelled. The amount, the coordinates, the discount and the quantity are kept as the text or number the setter receives. `BranchForm` keeps the coordinates as text, so the `toString`/`parseFloat` round trip of a number is not captured.
- JavaScript dates, ISO strings and `adjustDateToUTC` are not modelled. Dates are integers, or (day, month index, year) triples where a label is built. The date part of `toISOString()` in the creation payload is the picked integer.
- `trim` and `toLowerCase` are ASCII-only. Unicode white space and case mapping are not modelled.
- JSX rendering, styling and navigation containers are left out, except where a value decides what is shown: the icon, the colour, the label, the image and the create button.
- Concurrency is left out. Handlers are atomic sequential steps, with no double-press races, stale closures or render batching.
- `ScanMe.RedemptionSession.PermissionResolved`: the request and alert flow at ScanMe.tsx:86-106 is reduced to "permission becomes true once granted".
- `ScanMe.RedemptionSession.TermsEffect`: the model tracks only the terms flag. The terms modal is mounted only while `currentTerms` is truthy (ScanMe.tsx:428), so when the terms fetch fails (its catch only logs, ScanMe.tsx:127-129) or returns null data, the flag is set and no prompt is shown. The mounting condition is not modelled.
- `ScanMe.RedemptionSession.HandleAcceptTerms`: the user re-fetch after acceptance and the current-terms fetch are parameters, not modelled.
- `ProfileScreen.ProfileScreenState.constructor`: the `|| ''` defaults that build the initial form record from the user and partner (ProfileScreen.tsx:50-66) are taken as given. So is the effect that parses `birth_date` back into a picker date (85-90), and therefore `confirmDate` (108-116), which reads that picker date.
- `ProfileScreen.ProfileScreenState.HandleInputChange`: form values are text, number, flag, null or undefined; the country select and the image callback are instances of this handler.
- The data-loading effects of every screen (the `fetch*` dispatches on mount) are left out.
- The visibility flags of the date pickers, the category modals and the password field are left out. The iOS and Android branches of the date handlers store the same date (`date || startDate` on one, `if (date)` on the other), so the model has one handler.
- `ScanMe.RedemptionSession.SetAmount`: the quantity, amount and description inputs are editable only while a promotion is selected (ScanMe.tsx:398,406,413); the setters accept text in any state.
- `BranchForm.BranchFormState.HandleImagePick`: the image button is disabled outside editing (BranchForm.tsx:135); the model accepts a pick in any state.
- `MapSingle.StarAt`: the rating is a `real`, so a missing or `NaN` rating is not modelled.
- `MapSingle`: the callout rendering is left out.
- `BranchForm`: `handleSetCurrentLocation` (BranchForm.tsx:110-126) is left out; it reads the device location.
- `MainAppScreen`: the drawer toggling and the icon families' fonts are left out; `FamilyOf` only records which family draws each route.
- `MultiImageCompressor.MultiImageCompressorState.PickImages`: the permission request of the picker is left out, and the file names depend on the clock oracle, not on real time.
- `LoginScreen.LoginScreenState.HandleLogin`: the role and status checks read names from the reply; the role-list shape of the user record beyond names is not modelled.
