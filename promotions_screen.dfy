/** The partner's promotion list: the "not deleted" view, the filter modal's criteria chain,
    the category toggle, clearing, soft deletion by status and the create gate. */
module PromotionsScreen {
  import opened Common
  import opened Text

  // ---------------------------------------------------------------- the default view

  /** Kept by the default view: every promotion whose status is not named `deleted`,
      including those without a status. */
  predicate NotDeleted(p: Promotion)
  {
    p.status.None? || p.status.value.name != "deleted"
  }

  function VisiblePromotions(promotions: seq<Promotion>): (r: seq<Promotion>)
    ensures forall p :: p in r <==> p in promotions && NotDeleted(p)
  {
    Filter(promotions, NotDeleted)
  }

  lemma VisibleIsOrderedSublist(promotions: seq<Promotion>, p: Promotion)
    ensures IsSubsequence(VisiblePromotions(promotions), promotions)
    ensures multiset(VisiblePromotions(promotions))[p] ==
              if NotDeleted(p) then multiset(promotions)[p] else 0
  {
    FilterIsSubsequence(promotions, NotDeleted);
    FilterMultiset(promotions, NotDeleted, p);
  }

  // ---------------------------------------------------------------- filter criteria

  /** Some element of `a` occurs in `b`, as `a.some(x => b.includes(x))`. */
  predicate Overlaps(a: seq<nat>, b: seq<nat>)
  {
    exists i :: 0 <= i < |a| && a[i] in b
  }

  /** The state the filter reads. `preferencesApply` is `filterByPreferences && user &&
      user.categories`; `userCategoryIds` are the ids of the user's preferred categories. */
  datatype Criteria = Criteria(
    preferencesApply: bool,
    userCategoryIds: seq<nat>,
    categories: seq<nat>,
    keyword: string,
    startDate: Option<int>,
    endDate: Option<int>)

  predicate PreferencesOk(p: Promotion, c: Criteria)
  {
    Overlaps(p.categoryIds, c.userCategoryIds)
  }

  predicate CategoriesOk(p: Promotion, c: Criteria)
  {
    Overlaps(c.categories, p.categoryIds)
  }

  /** Case-insensitive substring test on the title. */
  predicate KeywordOk(p: Promotion, c: Criteria)
  {
    Contains(ToLower(p.title), ToLower(c.keyword))
  }

  predicate StartOk(p: Promotion, c: Criteria)
    requires c.startDate.Some?
  {
    p.startDate >= c.startDate.value
  }

  predicate EndOk(p: Promotion, c: Criteria)
    requires c.endDate.Some?
  {
    p.expirationDate <= c.endDate.value
  }

  /** Each criterion that is set is one conjunct; a criterion that is not set passes
      everything. This is the reference definition of the filter chain. */
  predicate Matches(p: Promotion, c: Criteria)
  {
    && (c.preferencesApply ==> PreferencesOk(p, c))
    && (|c.categories| > 0 ==> CategoriesOk(p, c))
    && (c.keyword != "" ==> KeywordOk(p, c))
    && (c.startDate.Some? ==> StartOk(p, c))
    && (c.endDate.Some? ==> EndOk(p, c))
  }

  /** The first `n` criteria of the chain, in the order they are applied. */
  predicate Stage(p: Promotion, c: Criteria, n: nat)
  {
    && (n >= 1 && c.preferencesApply ==> PreferencesOk(p, c))
    && (n >= 2 && |c.categories| > 0 ==> CategoriesOk(p, c))
    && (n >= 3 && c.keyword != "" ==> KeywordOk(p, c))
    && (n >= 4 && c.startDate.Some? ==> StartOk(p, c))
    && (n >= 5 && c.endDate.Some? ==> EndOk(p, c))
  }

  /** The promotions matching every set criterion, in their original order. */
  function FilterByCriteria(promotions: seq<Promotion>, c: Criteria): (r: seq<Promotion>)
    ensures forall p :: p in r <==> p in promotions && Matches(p, c)
  {
    Filter(promotions, p => Matches(p, c))
  }

  /** With no criterion set the filter returns the whole list, deleted promotions included. */
  lemma NoCriteriaKeepsAll(promotions: seq<Promotion>, userCategoryIds: seq<nat>)
    ensures FilterByCriteria(promotions, Criteria(false, userCategoryIds, [], "", None, None))
              == promotions
  {
    FilterAllTrue(promotions, p => Matches(p, Criteria(false, userCategoryIds, [], "", None, None)));
  }

  /** The result keeps the order and multiplicities of the list it filters. */
  lemma FilterByCriteriaIsOrderedSublist(promotions: seq<Promotion>, c: Criteria, p: Promotion)
    ensures IsSubsequence(FilterByCriteria(promotions, c), promotions)
    ensures multiset(FilterByCriteria(promotions, c))[p] ==
              if Matches(p, c) then multiset(promotions)[p] else 0
  {
    FilterIsSubsequence(promotions, q => Matches(q, c));
    FilterMultiset(promotions, q => Matches(q, c), p);
  }

  /** A deleted promotion that matches the criteria is shown again by the filter. */
  lemma DeletedCanReappear(promotions: seq<Promotion>, c: Criteria, p: Promotion)
    requires p in promotions && !NotDeleted(p) && Matches(p, c)
    ensures p in FilterByCriteria(promotions, c)
    ensures p !in VisiblePromotions(promotions)
  {
  }

  // The five steps of the chain, each a filter by one criterion.

  function ByPreferences(ps: seq<Promotion>, c: Criteria): seq<Promotion>
  {
    Filter(ps, p => PreferencesOk(p, c))
  }

  function ByCategories(ps: seq<Promotion>, c: Criteria): seq<Promotion>
  {
    Filter(ps, p => CategoriesOk(p, c))
  }

  function ByKeyword(ps: seq<Promotion>, c: Criteria): seq<Promotion>
  {
    Filter(ps, p => KeywordOk(p, c))
  }

  function FromStartDate(ps: seq<Promotion>, c: Criteria): seq<Promotion>
    requires c.startDate.Some?
  {
    Filter(ps, p => StartOk(p, c))
  }

  function UntilEndDate(ps: seq<Promotion>, c: Criteria): seq<Promotion>
    requires c.endDate.Some?
  {
    Filter(ps, p => EndOk(p, c))
  }

  /** The promotions passing the first `n` criteria. */
  function StageFilter(promotions: seq<Promotion>, c: Criteria, n: nat): (r: seq<Promotion>)
    ensures forall p :: p in r <==> p in promotions && Stage(p, c, n)
  {
    Filter(promotions, p => Stage(p, c, n))
  }

  /** Stage `n` differs from stage `n - 1` only by the `n`-th criterion `g`, when it is set. */
  lemma StageStep(promotions: seq<Promotion>, c: Criteria, n: nat, g: Promotion -> bool)
    requires 1 <= n
    requires forall i :: 0 <= i < |promotions| ==>
               Stage(promotions[i], c, n) == (Stage(promotions[i], c, n - 1) && g(promotions[i]))
    ensures Filter(StageFilter(promotions, c, n - 1), g) == StageFilter(promotions, c, n)
  {
    FilterRefine(promotions, p => Stage(p, c, n - 1), g, p => Stage(p, c, n));
  }

  lemma StageSkip(promotions: seq<Promotion>, c: Criteria, n: nat)
    requires 1 <= n
    requires forall i :: 0 <= i < |promotions| ==>
               Stage(promotions[i], c, n) == Stage(promotions[i], c, n - 1)
    ensures StageFilter(promotions, c, n - 1) == StageFilter(promotions, c, n)
  {
    FilterCongruent(promotions, p => Stage(p, c, n - 1), p => Stage(p, c, n));
  }

  lemma StagePreferences(promotions: seq<Promotion>, c: Criteria)
    ensures StageFilter(promotions, c, 0) == promotions
    ensures c.preferencesApply ==>
              ByPreferences(promotions, c) == StageFilter(promotions, c, 1)
    ensures !c.preferencesApply ==> promotions == StageFilter(promotions, c, 1)
  {
    FilterAllTrue(promotions, p => Stage(p, c, 0));
    if c.preferencesApply {
      StageStep(promotions, c, 1, p => PreferencesOk(p, c));
    } else {
      StageSkip(promotions, c, 1);
    }
  }

  lemma StageCategories(promotions: seq<Promotion>, c: Criteria)
    ensures |c.categories| > 0 ==>
              ByCategories(StageFilter(promotions, c, 1), c) == StageFilter(promotions, c, 2)
    ensures |c.categories| == 0 ==> StageFilter(promotions, c, 1) == StageFilter(promotions, c, 2)
  {
    if |c.categories| > 0 {
      StageStep(promotions, c, 2, p => CategoriesOk(p, c));
    } else {
      StageSkip(promotions, c, 2);
    }
  }

  lemma StageKeyword(promotions: seq<Promotion>, c: Criteria)
    ensures c.keyword != "" ==>
              ByKeyword(StageFilter(promotions, c, 2), c) == StageFilter(promotions, c, 3)
    ensures c.keyword == "" ==> StageFilter(promotions, c, 2) == StageFilter(promotions, c, 3)
  {
    if c.keyword != "" {
      StageStep(promotions, c, 3, p => KeywordOk(p, c));
    } else {
      StageSkip(promotions, c, 3);
    }
  }

  lemma StageStart(promotions: seq<Promotion>, c: Criteria)
    ensures c.startDate.Some? ==>
              FromStartDate(StageFilter(promotions, c, 3), c) == StageFilter(promotions, c, 4)
    ensures c.startDate.None? ==> StageFilter(promotions, c, 3) == StageFilter(promotions, c, 4)
  {
    if c.startDate.Some? {
      StageStep(promotions, c, 4, p => StartOk(p, c));
    } else {
      StageSkip(promotions, c, 4);
    }
  }

  lemma StageEnd(promotions: seq<Promotion>, c: Criteria)
    ensures c.endDate.Some? ==>
              UntilEndDate(StageFilter(promotions, c, 4), c) == FilterByCriteria(promotions, c)
    ensures c.endDate.None? ==> StageFilter(promotions, c, 4) == FilterByCriteria(promotions, c)
  {
    if c.endDate.Some? {
      StageStep(promotions, c, 5, p => EndOk(p, c));
    } else {
      StageSkip(promotions, c, 5);
    }
    FilterCongruent(promotions, p => Stage(p, c, 5), p => Matches(p, c));
  }

  /** The chain as the screen runs it, one optional step after another, is the filter by the
      conjunction of the criteria that are set. */
  lemma ChainIsFilter(promotions: seq<Promotion>, c: Criteria,
                      f1: seq<Promotion>, f2: seq<Promotion>, f3: seq<Promotion>,
                      f4: seq<Promotion>, f5: seq<Promotion>)
    requires f1 == if c.preferencesApply then ByPreferences(promotions, c) else promotions
    requires f2 == if |c.categories| > 0 then ByCategories(f1, c) else f1
    requires f3 == if c.keyword != "" then ByKeyword(f2, c) else f2
    requires f4 == if c.startDate.Some? then FromStartDate(f3, c) else f3
    requires f5 == if c.endDate.Some? then UntilEndDate(f4, c) else f4
    ensures f5 == FilterByCriteria(promotions, c)
  {
    StagePreferences(promotions, c);
    assert f1 == StageFilter(promotions, c, 1);
    StageCategories(promotions, c);
    assert f2 == StageFilter(promotions, c, 2);
    StageKeyword(promotions, c);
    assert f3 == StageFilter(promotions, c, 3);
    StageStart(promotions, c);
    assert f4 == StageFilter(promotions, c, 4);
    StageEnd(promotions, c);
  }

  // ---------------------------------------------------------------- date labels

  /** `DD-MM-YYYY` from the day of the month, the zero-based month and the year. */
  function FormatDateString(day: nat, monthIndex: nat, year: int): string
  {
    Pad2(day) + "-" + Pad2(monthIndex + 1) + "-" + IntToString(year)
  }

  /** For a calendar date the label has three hyphen-separated parts: the day and the month
      as exactly two digits, then the year, each of which parses back to its number. */
  lemma FormatDateStringParts(day: nat, monthIndex: nat, year: nat)
    requires 1 <= day <= 31 && monthIndex <= 11
    ensures var parts := Split(FormatDateString(day, monthIndex, year), '-');
      && parts == [Pad2(day), Pad2(monthIndex + 1), NatToString(year)]
      && |parts[0]| == 2 && |parts[1]| == 2
      && ParseInt(parts[0]) == Num(day)
      && ParseInt(parts[1]) == Num(monthIndex + 1)
      && ParseInt(parts[2]) == Num(year)
  {
    Pad2Shape(day);
    Pad2Shape(monthIndex + 1);
    ParseIntOfNat(year);
    NoHyphenInDigits(Pad2(day));
    NoHyphenInDigits(Pad2(monthIndex + 1));
    NoHyphenInDigits(NatToString(year));
    assert IntToString(year) == NatToString(year);
    SplitThree(Pad2(day), Pad2(monthIndex + 1), NatToString(year), '-');
  }

  lemma NoHyphenInDigits(s: string)
    requires forall i :: 0 <= i < |s| ==> IsDigit(s[i])
    ensures '-' !in s
  {
  }

  // ---------------------------------------------------------------- the screen

  /** A soft delete: the promotion and the status id it is moved to. */
  datatype DeleteRequest = DeleteRequest(promotionId: nat, statusId: nat)

  class PromotionsScreenState {
    /** The store's promotions, as last delivered. */
    var promotions: seq<Promotion>
    var filteredPromotions: seq<Promotion>
    var selectedCategories: seq<nat>
    var keyword: string
    var startDate: Option<int>
    var endDate: Option<int>
    var filterByPreferences: bool
    var loading: bool
    var isModalVisible: bool
    var isCreateModalVisible: bool
    /** Every `deletePromotion` dispatched, in order. */
    var deleteRequests: seq<DeleteRequest>

    /** The criteria the filter reads, given whether the user record has categories and the
        ids of the user's preferred categories. */
    function CriteriaFor(userHasCategories: bool, userCategoryIds: seq<nat>): Criteria
      reads this`filterByPreferences, this`selectedCategories, this`keyword, this`startDate,
            this`endDate
    {
      Criteria(filterByPreferences && userHasCategories, userCategoryIds, selectedCategories,
               keyword, startDate, endDate)
    }

    /** Before the first effect runs, the list shown is the store's list as is. */
    constructor (storePromotions: seq<Promotion>)
      ensures promotions == storePromotions && filteredPromotions == storePromotions
      ensures selectedCategories == [] && keyword == "" && startDate.None? && endDate.None?
      ensures !filterByPreferences && !loading && !isModalVisible && !isCreateModalVisible
      ensures deleteRequests == []
    {
      promotions, filteredPromotions := storePromotions, storePromotions;
      selectedCategories, keyword, startDate, endDate := [], "", None, None;
      filterByPreferences, loading, isModalVisible, isCreateModalVisible := false, false, false, false;
      deleteRequests := [];
    }

    /** The store delivers new promotions: the view becomes the non-deleted ones. */
    method PromotionsChanged(storePromotions: seq<Promotion>)
      modifies this`promotions, this`filteredPromotions
      ensures promotions == storePromotions
      ensures filteredPromotions == VisiblePromotions(storePromotions)
    {
      promotions := storePromotions;
      filteredPromotions := Filter(storePromotions, NotDeleted);
    }

    /** A date picker event: a missing date leaves the bound unchanged. */
    method HandleStartDateChange(date: Option<int>)
      modifies this`startDate
      ensures startDate == if date.Some? then date else old(startDate)
    {
      if date.Some? {
        startDate := date;
      }
    }

    method HandleEndDateChange(date: Option<int>)
      modifies this`endDate
      ensures endDate == if date.Some? then date else old(endDate)
    {
      if date.Some? {
        endDate := date;
      }
    }

    method SetKeyword(text: string)
      modifies this`keyword
      ensures keyword == text
    {
      keyword := text;
    }

    method SetFilterByPreferences(on: bool)
      modifies this`filterByPreferences
      ensures filterByPreferences == on
    {
      filterByPreferences := on;
    }

    /** Toggles a category in the filter selection (see `Common.Toggle`). */
    method ToggleCategory(id: nat)
      modifies this`selectedCategories
      ensures selectedCategories == Toggle(old(selectedCategories), id)
    {
      if id in selectedCategories {
        selectedCategories := RemoveAll(selectedCategories, id);
      } else {
        selectedCategories := selectedCategories + [id];
      }
    }

    /** Applies the chain to the full store list, closes the modal and ends loading. */
    method ApplyFilters(userHasCategories: bool, userCategoryIds: seq<nat>)
      modifies this`filteredPromotions, this`loading, this`isModalVisible
      ensures filteredPromotions ==
                FilterByCriteria(promotions, CriteriaFor(userHasCategories, userCategoryIds))
      ensures !loading && !isModalVisible
    {
      loading := true;
      var c := CriteriaFor(userHasCategories, userCategoryIds);
      var filtered := promotions;
      if filterByPreferences && userHasCategories {
        filtered := ByPreferences(filtered, c);
      }
      ghost var f1 := filtered;
      if |selectedCategories| > 0 {
        filtered := ByCategories(filtered, c);
      }
      ghost var f2 := filtered;
      if keyword != "" {
        filtered := ByKeyword(filtered, c);
      }
      ghost var f3 := filtered;
      if startDate.Some? {
        filtered := FromStartDate(filtered, c);
      }
      ghost var f4 := filtered;
      if endDate.Some? {
        filtered := UntilEndDate(filtered, c);
      }
      ChainIsFilter(promotions, c, f1, f2, f3, f4, filtered);
      filteredPromotions := filtered;
      loading := false;
      isModalVisible := false;
      assert CriteriaFor(userHasCategories, userCategoryIds) == c;
    }

    /** Resets every criterion and shows the full store list (deleted ones included). */
    method ClearFilters()
      modifies this`selectedCategories, this`keyword, this`startDate, this`endDate,
               this`filterByPreferences, this`filteredPromotions
      ensures selectedCategories == [] && keyword == "" && startDate.None? && endDate.None?
      ensures !filterByPreferences && filteredPromotions == promotions
    {
      selectedCategories := [];
      keyword := "";
      startDate := None;
      endDate := None;
      filterByPreferences := false;
      filteredPromotions := promotions;
    }

    /** Soft delete: dispatched with the first status named `deleted`; with no such status
        nothing is dispatched. */
    method HandleDeletePromotion(statuses: seq<StatusEntry>, promotionId: nat)
      modifies this`deleteRequests
      ensures FindIdByName(statuses, "deleted").None? ==> deleteRequests == old(deleteRequests)
      ensures FindIdByName(statuses, "deleted").Some? ==>
                deleteRequests == old(deleteRequests) +
                  [DeleteRequest(promotionId, FindIdByName(statuses, "deleted").value)]
    {
      var deleted := FindIdByName(statuses, "deleted");
      if deleted.Some? {
        deleteRequests := deleteRequests + [DeleteRequest(promotionId, deleted.value)];
      }
    }

    /** The create button: an alert when the partner is known and has no branch, otherwise
        the create modal opens (also when the partner is not loaded). */
    method HandleCreatePress(partner: Option<Partner>) returns (alerted: bool)
      modifies this`isCreateModalVisible
      ensures alerted <==> partner.Some? && |partner.value.branchIds| == 0
      ensures isCreateModalVisible == if alerted then old(isCreateModalVisible) else true
    {
      if partner.Some? && |partner.value.branchIds| == 0 {
        alerted := true;
      } else {
        alerted := false;
        isCreateModalVisible := true;
      }
    }
  }
}
