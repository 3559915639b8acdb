/** Shared records and sequence operations used by several screens and components. */
module Common {

  datatype Option<T> = None | Some(value: T)

  /** Result of an awaited remote call as the caller observes it: a response with an HTTP
      status, or an exception escaping the awaited dispatch. */
  datatype CallResult = Status(code: int) | Thrown

  /** One entry of the status vocabulary fetched from the server (id <-> name). */
  datatype StatusEntry = StatusEntry(id: nat, name: string)

  datatype PromotionImage = PromotionImage(imageId: nat, imagePath: string)

  /** A promotion as held in the client store. `status` is absent when the server sent none;
      `discount` and `availableQuantity` are absent when null. Dates are day or instant numbers. */
  datatype Promotion = Promotion(
    promotionId: nat,
    title: string,
    description: string,
    discount: Option<int>,
    availableQuantity: Option<int>,
    startDate: int,
    expirationDate: int,
    status: Option<StatusEntry>,
    categoryIds: seq<nat>,
    images: seq<PromotionImage>)

  /** An image ready for upload: file name and base64 payload. */
  datatype CompressedImage = CompressedImage(filename: string, data: string)

  /** The partner record: only its branches' ids matter to the forms (0 is a missing id). */
  datatype Partner = Partner(branchIds: seq<nat>)

  /** JavaScript truthiness of a nullable number: present and non-zero. */
  predicate Truthy(q: Option<int>)
  {
    q.Some? && q.value != 0
  }

  /** JavaScript truthiness of a nullable id: present and non-zero. */
  predicate IdTruthy(id: Option<nat>)
  {
    id.Some? && id.value != 0
  }

  /** What `!user?.user_id || !partner?.branches[0].branch_id` yields in the promotion forms:
      the ids are missing, reading the first branch throws (a partner without branches), or
      the first branch's truthy id. */
  datatype BranchLookup = IdsMissing | BranchCrash | BranchFound(branchId: nat)

  function FirstBranchGuard(userId: Option<nat>, partner: Option<Partner>): (r: BranchLookup)
    ensures r.BranchCrash? <==> IdTruthy(userId) && partner.Some? && |partner.value.branchIds| == 0
    ensures r.BranchFound? <==> IdTruthy(userId) && partner.Some? && |partner.value.branchIds| > 0
                                && partner.value.branchIds[0] != 0
    ensures r.BranchFound? ==> r.branchId == partner.value.branchIds[0]
  {
    if !IdTruthy(userId) || partner.None? then IdsMissing
    else if |partner.value.branchIds| == 0 then BranchCrash
    else if partner.value.branchIds[0] == 0 then IdsMissing
    else BranchFound(partner.value.branchIds[0])
  }

  /** The id of the first status whose name is `name`, as `statuses.find(...)?.id`. */
  function FindIdByName(statuses: seq<StatusEntry>, name: string): (r: Option<nat>)
    ensures r.None? <==> forall i :: 0 <= i < |statuses| ==> statuses[i].name != name
    ensures r.Some? ==> exists i :: 0 <= i < |statuses| && statuses[i].name == name
                          && statuses[i].id == r.value
                          && forall j :: 0 <= j < i ==> statuses[j].name != name
  {
    if |statuses| == 0 then None
    else if statuses[0].name == name then Some(statuses[0].id)
    else
      var r := FindIdByName(statuses[1..], name);
      assert forall i :: 1 <= i < |statuses| ==> statuses[i] == statuses[1..][i - 1];
      r
  }

  /** `s.filter(f)`: the elements satisfying f, in their original order. */
  function Filter<T>(s: seq<T>, f: T -> bool): (r: seq<T>)
    ensures |r| <= |s|
    ensures forall i :: 0 <= i < |r| ==> r[i] in s && f(r[i])
    ensures forall i :: 0 <= i < |s| && f(s[i]) ==> s[i] in r
  {
    if |s| == 0 then []
    else if f(s[0]) then [s[0]] + Filter(s[1..], f)
    else Filter(s[1..], f)
  }

  /** `sub` is obtained from `s` by deleting elements (order is kept). */
  ghost predicate IsSubsequence<T>(sub: seq<T>, s: seq<T>)
    decreases |s|
  {
    if |sub| == 0 then true
    else if |s| == 0 then false
    else if sub[0] == s[0] then IsSubsequence(sub[1..], s[1..])
    else IsSubsequence(sub, s[1..])
  }

  lemma {:induction false} FilterIsSubsequence<T>(s: seq<T>, f: T -> bool)
    ensures IsSubsequence(Filter(s, f), s)
  {
    if |s| > 0 {
      FilterIsSubsequence(s[1..], f);
      if f(s[0]) {
        assert Filter(s, f)[1..] == Filter(s[1..], f);
      }
    }
  }

  /** The filter keeps every element with its multiplicity when it satisfies f, none otherwise. */
  lemma {:induction false} FilterMultiset<T>(s: seq<T>, f: T -> bool, x: T)
    ensures multiset(Filter(s, f))[x] == if f(x) then multiset(s)[x] else 0
  {
    if |s| > 0 {
      FilterMultiset(s[1..], f, x);
      assert s == [s[0]] + s[1..];
    }
  }

  lemma {:induction false} FilterAllTrue<T>(s: seq<T>, f: T -> bool)
    requires forall i :: 0 <= i < |s| ==> f(s[i])
    ensures Filter(s, f) == s
  {
    if |s| > 0 {
      FilterAllTrue(s[1..], f);
    }
  }

  /** Chaining two filters is filtering by the conjunction. */
  lemma {:induction false} FilterCompose<T>(s: seq<T>, f: T -> bool, g: T -> bool)
    ensures Filter(Filter(s, f), g) == Filter(s, x => f(x) && g(x))
  {
    if |s| > 0 {
      FilterCompose(s[1..], f, g);
      if f(s[0]) {
        assert Filter(s, f) == [s[0]] + Filter(s[1..], f);
        assert Filter(s, f)[1..] == Filter(s[1..], f);
      }
    }
  }

  /** Filters by predicates that agree on the elements give the same result. */
  lemma {:induction false} FilterCongruent<T>(s: seq<T>, f: T -> bool, g: T -> bool)
    requires forall i :: 0 <= i < |s| ==> f(s[i]) == g(s[i])
    ensures Filter(s, f) == Filter(s, g)
  {
    if |s| > 0 {
      FilterCongruent(s[1..], f, g);
    }
  }

  /** Filtering the result of a filter by `g` is filtering the original by any `h` that is
      the conjunction of both on the original's elements. */
  lemma FilterRefine<T>(s: seq<T>, f: T -> bool, g: T -> bool, h: T -> bool)
    requires forall i :: 0 <= i < |s| ==> h(s[i]) == (f(s[i]) && g(s[i]))
    ensures Filter(Filter(s, f), g) == Filter(s, h)
  {
    FilterCompose(s, f, g);
    FilterCongruent(s, x => f(x) && g(x), h);
  }

  lemma {:induction false} FilterAppend<T>(s: seq<T>, t: seq<T>, f: T -> bool)
    ensures Filter(s + t, f) == Filter(s, f) + Filter(t, f)
  {
    if |s| > 0 {
      assert (s + t)[1..] == s[1..] + t;
      FilterAppend(s[1..], t, f);
    } else {
      assert s + t == t;
    }
  }

  /** `s.filter(y => y !== x)`. */
  function RemoveAll<T(==)>(s: seq<T>, x: T): (r: seq<T>)
    ensures x !in r
    ensures forall i :: 0 <= i < |s| && s[i] != x ==> s[i] in r
    ensures forall i :: 0 <= i < |r| ==> r[i] in s
    ensures x in s ==> |r| < |s|
    ensures x !in s ==> r == s
  {
    if |s| == 0 then []
    else if s[0] == x then RemoveAll(s[1..], x)
    else [s[0]] + RemoveAll(s[1..], x)
  }

  lemma {:induction false} RemoveAllIsSubsequence<T>(s: seq<T>, x: T)
    ensures IsSubsequence(RemoveAll(s, x), s)
  {
    if |s| > 0 {
      RemoveAllIsSubsequence(s[1..], x);
      if s[0] != x {
        assert RemoveAll(s, x)[1..] == RemoveAll(s[1..], x);
      }
    }
  }

  lemma {:induction false} RemoveAllAppend<T>(s: seq<T>, t: seq<T>, x: T)
    ensures RemoveAll(s + t, x) == RemoveAll(s, x) + RemoveAll(t, x)
  {
    if |s| > 0 {
      assert (s + t)[1..] == s[1..] + t;
      RemoveAllAppend(s[1..], t, x);
    } else {
      assert s + t == t;
    }
  }

  /** The toggle shared by the category selectors: an absent id is appended at the end,
      a present id is removed together with all its duplicates. */
  function Toggle(s: seq<nat>, id: nat): (r: seq<nat>)
  {
    if id in s then RemoveAll(s, id) else s + [id]
  }

  lemma ToggleFlips(s: seq<nat>, id: nat)
    ensures id in Toggle(s, id) <==> id !in s
    ensures forall y :: y != id ==> (y in Toggle(s, id) <==> y in s)
    ensures id !in s ==> Toggle(s, id) == s + [id]
  {
  }

  /** Removing keeps the other ids in their relative order and shortens the list. */
  lemma ToggleKeepsOrder(s: seq<nat>, id: nat)
    requires id in s
    ensures IsSubsequence(Toggle(s, id), s)
    ensures |Toggle(s, id)| < |s|
  {
    RemoveAllIsSubsequence(s, id);
  }

  /** Toggling an id that is absent twice gives back the original list. */
  lemma ToggleTwiceAbsent(s: seq<nat>, id: nat)
    requires id !in s
    ensures Toggle(Toggle(s, id), id) == s
  {
    RemoveAllAppend(s, [id], id);
    assert RemoveAll([id], id) == [];
  }
}
