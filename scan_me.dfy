/** The redemption session of the QR scanner screen: camera and timer flags, the decoding of the
    scanned payload, the choice of an eligible promotion, the quantity bound, the confirmation
    that submits a consumption record, and the terms-of-service prompt. */
module ScanMe {
  import opened Common
  import opened Text

  // ---------------------------------------------------------------- eligibility

  /** A promotion can be redeemed at `now` when its status is named `active` and `now` lies in
      [start date, expiration date], both bounds included. */
  predicate IsEligible(p: Promotion, now: int)
  {
    p.status.Some? && p.status.value.name == "active" && p.startDate <= now <= p.expirationDate
  }

  /** The promotions offered in the picker, recomputed from the store on every render. */
  function EligiblePromotions(promotions: seq<Promotion>, now: int): (r: seq<Promotion>)
    ensures forall p :: p in r <==> p in promotions && IsEligible(p, now)
  {
    Filter(promotions, p => IsEligible(p, now))
  }

  /** The eligible list keeps the store's order and each eligible promotion's multiplicity. */
  lemma EligibleIsOrderedSublist(promotions: seq<Promotion>, now: int, p: Promotion)
    ensures IsSubsequence(EligiblePromotions(promotions, now), promotions)
    ensures multiset(EligiblePromotions(promotions, now))[p] ==
              if IsEligible(p, now) then multiset(promotions)[p] else 0
  {
    FilterIsSubsequence(promotions, q => IsEligible(q, now));
    FilterMultiset(promotions, q => IsEligible(q, now), p);
  }

  // ---------------------------------------------------------------- the scanned payload

  /** What the scan yields: the user text and the email, which is absent (undefined) when
      the payload has no hyphen. */
  datatype ScannedIdentity = ScannedIdentity(user: string, email: Option<string>)

  /** `const [userId, email] = data.split('-')`: the split happens at every hyphen, and only
      the first two segments are kept. */
  function ParseScan(data: string): ScannedIdentity
  {
    var parts := Split(data, '-');
    ScannedIdentity(parts[0], if |parts| >= 2 then Some(parts[1]) else None)
  }

  /** The user is the text before the first hyphen; the email is the text between the first
      and the second hyphen (or to the end), and is absent exactly when there is no hyphen. */
  lemma ParseScanSegments(data: string)
    ensures ParseScan(data).user == data[..IndexOf(data, '-')]
    ensures ParseScan(data).email.None? <==> '-' !in data
    ensures '-' in data ==>
              var rest := data[IndexOf(data, '-') + 1..];
              ParseScan(data).email == Some(rest[..IndexOf(rest, '-')])
  {
    SplitHead(data, '-');
    SplitLength(data, '-');
    CountZero(data, '-');
    if '-' in data {
      var rest := data[IndexOf(data, '-') + 1..];
      SplitHead(rest, '-');
    }
  }

  /** A payload built from a hyphen-free user and email decodes to those two, and any further
      hyphenated text after the email is dropped. */
  lemma {:induction false} ParseScanOfParts(user: string, email: string, tail: string)
    requires '-' !in user && '-' !in email
    ensures ParseScan(user + "-" + email) == ScannedIdentity(user, Some(email))
    ensures ParseScan(user + "-" + email + "-" + tail) == ScannedIdentity(user, Some(email))
  {
    SplitJoin([user, email], '-');
    assert Join([user, email], '-') == user + "-" + email;
    var ps := Split(tail, '-');
    JoinSplit(tail, '-');
    var all := [user, email] + ps;
    assert all[1..] == [email] + ps;
    assert ([email] + ps)[1..] == ps;
    assert Join(all, '-') == user + "-" + email + "-" + tail;
    forall i | 0 <= i < |all| ensures '-' !in all[i] {
      if i >= 2 { assert all[i] == ps[i - 2]; }
    }
    SplitJoin(all, '-');
  }

  // ---------------------------------------------------------------- quantity field

  /** A keystroke in the quantity field is refused when a promotion is selected, its available
      quantity is truthy (not null and not 0) and the typed integer exceeds it. NaN exceeds
      nothing. */
  predicate QuantityRejected(selected: Option<Promotion>, text: string)
  {
    && selected.Some?
    && Truthy(selected.value.availableQuantity)
    && ParseInt(text).Num?
    && ParseInt(text).n > selected.value.availableQuantity.value
  }

  /** For a typed decimal number the rule is exactly "exceeds a truthy bound"; a null or zero
      bound means unlimited, and text without digits is never refused. */
  lemma QuantityRule(p: Promotion, k: int, text: string)
    ensures QuantityRejected(Some(p), IntToString(k)) <==>
              Truthy(p.availableQuantity) && k > p.availableQuantity.value
    ensures !Truthy(p.availableQuantity) ==> !QuantityRejected(Some(p), text)
    ensures ParseInt(text).NaN? ==> !QuantityRejected(Some(p), text)
    ensures !QuantityRejected(None, text)
  {
    ParseIntOfString(k);
  }

  // ---------------------------------------------------------------- submission

  /** The `user_id` sent: `scannedUser && parseInt(scannedUser, 10)` forwards a null or empty
      scanned user unchanged and parses any other text. */
  datatype UserRef = NullUser | EmptyUser | ParsedUser(id: ParsedInt)

  datatype ConsumptionRecord = ConsumptionRecord(
    userId: UserRef,
    promotionId: nat,
    statusId: Option<nat>,
    quantityConsumed: ParsedInt,
    consumptionDate: int,
    description: string,
    amountConsumed: string)

  function UserRefOf(user: Option<string>): (r: UserRef)
    ensures r.NullUser? <==> user.None?
    ensures r.EmptyUser? <==> user == Some("")
    ensures r.ParsedUser? ==> r.id == ParseInt(user.value)
  {
    match user
    case None => NullUser
    case Some(u) => if u == "" then EmptyUser else ParsedUser(ParseInt(u))
  }

  /** The transient fields of one redemption: the selected promotion, the typed quantity,
      amount and description, and the scanned identity. */
  datatype RedemptionForm = RedemptionForm(
    selectedPromotion: Option<Promotion>,
    quantity: string,
    amount: string,
    description: string,
    scannedUser: Option<string>,
    scannedEmail: Option<string>)

  const EmptyForm := RedemptionForm(None, "", "", "", None, None)

  /** The guard of the confirm button: a promotion, a quantity and an amount. The scanned user
      is not checked. */
  predicate ConfirmReady(form: RedemptionForm)
  {
    form.selectedPromotion.Some? && form.quantity != "" && form.amount != ""
  }

  /** The record a confirmation sends, absent when the guard fails. */
  function ConsumptionOf(form: RedemptionForm, statuses: seq<StatusEntry>, now: int)
    : (r: Option<ConsumptionRecord>)
    ensures r.None? <==> !ConfirmReady(form)
  {
    if !ConfirmReady(form) then None
    else
      Some(ConsumptionRecord(UserRefOf(form.scannedUser), form.selectedPromotion.value.promotionId,
                             FindIdByName(statuses, "active"), ParseInt(form.quantity), now,
                             form.description, form.amount))
  }

  /** The fields of a sent record: the selected promotion's id, the status id of the first
      status named `active` (absent when the vocabulary has none), the parsed quantity, the
      user reference, and the description and amount as typed. */
  lemma ConsumptionOfFields(form: RedemptionForm, statuses: seq<StatusEntry>, now: int)
    requires ConfirmReady(form)
    ensures var r := ConsumptionOf(form, statuses, now).value;
      && r.promotionId == form.selectedPromotion.value.promotionId
      && (r.statusId.None? <==> forall i :: 0 <= i < |statuses| ==> statuses[i].name != "active")
      && (r.statusId.Some? ==> exists i :: 0 <= i < |statuses| &&
                                 statuses[i] == StatusEntry(r.statusId.value, "active") &&
                                 forall j :: 0 <= j < i ==> statuses[j].name != "active")
      && r.quantityConsumed == ParseInt(form.quantity)
      && r.userId == UserRefOf(form.scannedUser)
      && r.description == form.description && r.amountConsumed == form.amount
      && r.consumptionDate == now
  {
    var r := ConsumptionOf(form, statuses, now).value;
    if r.statusId.Some? {
      var i :| 0 <= i < |statuses| && statuses[i].name == "active" && statuses[i].id == r.statusId.value
                && forall j :: 0 <= j < i ==> statuses[j].name != "active";
      assert statuses[i] == StatusEntry(r.statusId.value, "active");
    }
  }

  // ---------------------------------------------------------------- terms of service

  /** What the user record says about accepted terms: nothing (no user, or a user record
      whose `terms` is undefined), `terms: null`, or the terms object accepted last, whose
      `version` may itself be undefined (`None`). */
  datatype UserTerms = NoTerms | TermsNull | Accepted(version: Option<string>)

  /** The current terms as fetched: still undefined until the request succeeds, then the
      response data, whose `version` is undefined (`None`) when the data carries none. */
  datatype CurrentTerms = NotFetched | Fetched(version: Option<string>)

  /** Whether the terms effect opens the prompt. Two undefined versions compare equal, and
      an undefined version differs from every defined one. */
  function TermsPromptNeeded(user: UserTerms, current: CurrentTerms): (r: bool)
    ensures user.TermsNull? ==> r
    ensures user.NoTerms? ==> !r
    ensures current.NotFetched? ==> (r <==> user.TermsNull?)
    ensures user.Accepted? && current.Fetched? ==> (r <==> user.version != current.version)
  {
    (user.Accepted? && current.Fetched? && user.version != current.version) || user.TermsNull?
  }

  // ---------------------------------------------------------------- the session

  class RedemptionSession {
    var hasPermission: bool
    var cameraVisible: bool
    /** A pending auto-close timer is stored in the timeout ref. */
    var timerArmed: bool
    var modalVisible: bool
    var form: RedemptionForm
    var termsModalVisible: bool
    var termsLoading: bool
    /** Number of `fetchPromotions` dispatches caused by redemptions. */
    var refetches: nat
    /** Whether `logOutUser` has been dispatched. */
    var loggedOut: bool
    /** Every route passed to `navigation.navigate`, in order. */
    var navigations: seq<string>

    /** The camera is shown exactly while its auto-close timer is pending, and only with
        permission. */
    ghost predicate Valid()
      reads this
    {
      (cameraVisible <==> timerArmed) && (cameraVisible ==> hasPermission)
    }

    constructor ()
      ensures Valid() && form == EmptyForm
      ensures !hasPermission && !cameraVisible && !modalVisible && !termsModalVisible
      ensures !termsLoading && refetches == 0 && !loggedOut && navigations == []
    {
      hasPermission, cameraVisible, timerArmed, modalVisible := false, false, false, false;
      form := EmptyForm;
      termsModalVisible, termsLoading, refetches := false, false, 0;
      loggedOut, navigations := false, [];
    }

    /** The permission effect records a granted camera permission; a refusal only alerts. */
    method PermissionResolved(granted: bool)
      requires Valid()
      modifies this`hasPermission
      ensures Valid()
      ensures hasPermission == (old(hasPermission) || granted)
    {
      if granted {
        hasPermission := true;
      }
    }

    /** The scan button: with permission the camera opens and the auto-close timer is armed;
        without it an alert is shown and nothing changes. */
    method HandleQRScan() returns (alerted: bool)
      requires Valid()
      modifies this`cameraVisible, this`timerArmed
      ensures Valid()
      ensures alerted <==> !hasPermission
      ensures hasPermission ==> cameraVisible && timerArmed
      ensures !hasPermission ==> cameraVisible == old(cameraVisible) && timerArmed == old(timerArmed)
    {
      if hasPermission {
        cameraVisible := true;
        timerArmed := true;
        alerted := false;
      } else {
        alerted := true;
      }
    }

    /** The auto-close timer fires: the camera closes. */
    method TimerFires()
      requires Valid() && timerArmed
      modifies this`cameraVisible, this`timerArmed
      ensures Valid() && !cameraVisible && !timerArmed
    {
      cameraVisible := false;
      timerArmed := false;
    }

    /** A decoded QR code: the camera closes, the identity is stored, the form opens and the
        timer is cleared. The rest of the form is kept. */
    method HandleBarCodeScanned(data: string)
      requires Valid()
      modifies this`cameraVisible, this`form, this`modalVisible, this`timerArmed
      ensures Valid()
      ensures !cameraVisible && !timerArmed && modalVisible
      ensures form == old(form).(scannedUser := Some(ParseScan(data).user),
                                 scannedEmail := ParseScan(data).email)
    {
      cameraVisible := false;
      var identity := ParseScan(data);
      form := form.(scannedUser := Some(identity.user), scannedEmail := identity.email);
      modalVisible := true;
      timerArmed := false;
    }

    /** The picker offers the placeholder (null) and the eligible promotions only, so the
        selection is always null or eligible now. */
    method HandlePromotionSelect(p: Option<Promotion>, promotions: seq<Promotion>, now: int)
      requires p.None? || p.value in EligiblePromotions(promotions, now)
      modifies this`form
      ensures form == old(form).(selectedPromotion := p)
      ensures form.selectedPromotion.Some? ==>
                form.selectedPromotion.value in promotions && IsEligible(form.selectedPromotion.value, now)
    {
      form := form.(selectedPromotion := p);
    }

    /** A keystroke in the quantity field: refused (with an alert) or stored verbatim. */
    method HandleQuantityChange(text: string) returns (rejected: bool)
      modifies this`form
      ensures rejected == QuantityRejected(old(form).selectedPromotion, text)
      ensures form == if rejected then old(form) else old(form).(quantity := text)
    {
      rejected := QuantityRejected(form.selectedPromotion, text);
      if !rejected {
        form := form.(quantity := text);
      }
    }

    method SetAmount(text: string)
      modifies this`form
      ensures form == old(form).(amount := text)
    {
      form := form.(amount := text);
    }

    method SetDescription(text: string)
      modifies this`form
      ensures form == old(form).(description := text)
    {
      form := form.(description := text);
    }

    /** Confirm. When the guard fails nothing is sent and nothing changes. Otherwise the record
        is sent; a 200 response refetches the promotions of the store's user once and clears
        the form. Any other status, an exception, or a 200 with no user in the store (reading
        its id throws before the fields are cleared) leaves the form for a retry; the form
        modal closes either way. */
    method HandleConfirm(statuses: seq<StatusEntry>, now: int, result: CallResult,
                         storeUser: Option<nat>)
      returns (sent: Option<ConsumptionRecord>)
      requires Valid()
      modifies this`modalVisible, this`refetches, this`form
      ensures Valid()
      ensures sent == ConsumptionOf(old(form), statuses, now)
      ensures sent.None? ==> modalVisible == old(modalVisible)
      ensures sent.Some? ==> !modalVisible
      ensures form == if sent.Some? && result == Status(200) && storeUser.Some? then EmptyForm
                      else old(form)
      ensures refetches == if sent.Some? && result == Status(200) && storeUser.Some?
                           then old(refetches) + 1 else old(refetches)
    {
      sent := ConsumptionOf(form, statuses, now);
      if sent.None? {
        return;
      }
      if result == Status(200) && storeUser.Some? {
        refetches := refetches + 1;
        form := EmptyForm;
      }
      modalVisible := false;
    }

    /** Cancel, from any state: the form closes and every transient field is cleared. */
    method HandleCancel()
      requires Valid()
      modifies this`modalVisible, this`form
      ensures Valid() && form == EmptyForm && !modalVisible
    {
      modalVisible := false;
      form := EmptyForm;
    }

    /** Closing the camera by hand also disarms the timer. */
    method HandleCloseCamera()
      requires Valid()
      modifies this`cameraVisible, this`timerArmed
      ensures Valid() && !cameraVisible && !timerArmed
    {
      cameraVisible := false;
      timerArmed := false;
    }

    /** The terms effect only ever opens the prompt. */
    method TermsEffect(user: UserTerms, current: CurrentTerms)
      modifies this`termsModalVisible
      ensures termsModalVisible == (old(termsModalVisible) || TermsPromptNeeded(user, current))
    {
      if TermsPromptNeeded(user, current) {
        termsModalVisible := true;
      }
    }

    /** Accepting the terms: on success the prompt closes and loading ends; when the request
        fails the prompt stays and loading is left on. */
    method HandleAcceptTerms(ok: bool)
      modifies this`termsModalVisible, this`termsLoading
      ensures ok ==> !termsModalVisible && !termsLoading
      ensures !ok ==> termsModalVisible == old(termsModalVisible) && termsLoading
    {
      termsLoading := true;
      if ok {
        termsModalVisible := false;
        termsLoading := false;
      }
    }

    /** Refusing the terms dispatches the logout, closes the prompt and navigates to the
        login screen. */
    method HandleCancelTerms()
      modifies this`loggedOut, this`termsModalVisible, this`navigations
      ensures loggedOut && !termsModalVisible
      ensures navigations == old(navigations) + ["Login"]
    {
      loggedOut := true;
      termsModalVisible := false;
      navigations := navigations + ["Login"];
    }
  }
}
