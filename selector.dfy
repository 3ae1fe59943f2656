/** The strictest-limit selector of the rate-limit path: `getLowerRateLimit`
    and `validateRatelimit` in lib/carto_metadata.js.

    The store answers one rate-limit evaluation with an array holding one
    candidate per limit definition; a well-formed candidate is the 5-tuple
    `[isBlocked, limit, remaining, retry, reset]` that redis-cell's
    CL.THROTTLE produces. The selector reduces that array to the one
    candidate that gates the caller: the first blocked one, otherwise the one
    with the fewest remaining requests (earliest on ties). */
module Selector {
  import opened Wrappers

  /** One element of the reply array: a JavaScript array of integers, or any
      other value (such as `{}`) that has no `length`. */
  datatype Candidate = Values(fields: seq<int>) | NotAnArray

  /** The reply as a whole: an array, or a non-array such as `undefined`,
      `null` or `{}`. */
  datatype Reply = Array(items: seq<Candidate>) | NotArray

  /** `validateRatelimit`: a candidate is well formed when its length is
      exactly 5; only then does the selector read its blocked flag (index 0)
      and its `remaining` count (index 2). */
  predicate ValidateRatelimit(c: Candidate): (ok: bool)
    ensures ok ==> c.Values? && 2 < |c.fields|
  {
    c.Values? && |c.fields| == 5
  }

  /** A well-formed candidate whose blocked flag is exactly 1. */
  predicate ValidBlocked(c: Candidate) {
    ValidateRatelimit(c) && c.fields[0] == 1
  }

  /** The `remaining` field of a well-formed candidate. */
  function Remaining(c: Candidate): int
    requires ValidateRatelimit(c)
  {
    c.fields[2]
  }

  /** Index of the first well-formed blocked candidate, if there is one
      (its properties are `FirstBlockedIsFirst`). */
  function FirstBlocked(items: seq<Candidate>): (r: Option<nat>)
    ensures r.Some? ==> r.value < |items| && ValidBlocked(items[r.value])
    decreases |items|
  {
    if items == [] then None else PreferBlocked(items[0], FirstBlocked(items[1..]))
  }

  /** A blocked head comes first; otherwise the tail's first blocked index,
      renumbered. */
  function PreferBlocked(head: Candidate, tailFirst: Option<nat>): Option<nat> {
    if ValidBlocked(head) then Some(0)
    else match tailFirst
      case None => None
      case Some(i) => Some(i + 1)
  }

  /** `FirstBlocked` finds nothing exactly when no candidate is a
      well-formed blocked one, and otherwise the first such candidate. */
  lemma {:induction false} FirstBlockedIsFirst(items: seq<Candidate>)
    ensures FirstBlocked(items).None? <==> forall j :: 0 <= j < |items| ==> !ValidBlocked(items[j])
    ensures FirstBlocked(items).Some? ==> forall j :: 0 <= j < FirstBlocked(items).value ==> !ValidBlocked(items[j])
    decreases |items|
  {
    if items != [] {
      FirstBlockedIsFirst(items[1..]);
      assert forall j :: 1 <= j < |items| ==> items[j] == items[1..][j - 1];
    }
  }

  /** Index of the earliest well-formed candidate whose `remaining` is
      smallest among all well-formed candidates, if there is one (its
      properties are `MinRemainingIsEarliestMinimum`). */
  function MinRemaining(items: seq<Candidate>): (r: Option<nat>)
    ensures r.Some? ==> r.value < |items| && ValidateRatelimit(items[r.value])
    decreases |items|
  {
    if items == [] then None else Prefer(items, MinRemaining(items[1..]))
  }

  /** Weighs the head of `items` against the best index of its tail:
      the tail's candidate wins only with strictly fewer remaining. */
  function Prefer(items: seq<Candidate>, tailMin: Option<nat>): (r: Option<nat>)
    requires items != []
    requires tailMin.Some? ==> tailMin.value + 1 < |items| && ValidateRatelimit(items[tailMin.value + 1])
    ensures r.Some? ==> r.value < |items| && ValidateRatelimit(items[r.value])
  {
    match tailMin
    case None => if ValidateRatelimit(items[0]) then Some(0) else None
    case Some(i) =>
      if !ValidateRatelimit(items[0]) || Remaining(items[i + 1]) < Remaining(items[0]) then Some(i + 1)
      else Some(0)
  }

  /** `MinRemaining` finds nothing exactly when no candidate is well formed,
      and otherwise the earliest well-formed candidate with the smallest
      `remaining`. */
  lemma {:induction false} MinRemainingIsEarliestMinimum(items: seq<Candidate>)
    ensures MinRemaining(items).None? <==> forall j :: 0 <= j < |items| ==> !ValidateRatelimit(items[j])
    ensures MinRemaining(items).Some? ==>
              var m := MinRemaining(items).value;
              && m < |items| && ValidateRatelimit(items[m])
              && (forall j :: 0 <= j < |items| && ValidateRatelimit(items[j]) ==>
                    Remaining(items[m]) <= Remaining(items[j]))
              && (forall j :: 0 <= j < m && ValidateRatelimit(items[j]) ==>
                    Remaining(items[m]) < Remaining(items[j]))
    decreases |items|
  {
    if items != [] {
      MinRemainingIsEarliestMinimum(items[1..]);
      assert forall j :: 1 <= j < |items| ==> items[j] == items[1..][j - 1];
    }
  }

  /** The candidate the selector returns, as a function of the reply. */
  function LowerRateLimit(reply: Reply): (r: Option<Candidate>)
    ensures r.Some? ==> reply.Array? && r.value in reply.items && ValidateRatelimit(r.value)
    ensures r.None? <==>
              reply.NotArray? ||
              forall j :: 0 <= j < |reply.items| ==> !ValidateRatelimit(reply.items[j])
  {
    match reply
    case NotArray => None
    case Array(items) =>
      match FirstBlocked(items)
      case Some(i) => Some(items[i])
      case None =>
        MinRemainingIsEarliestMinimum(items);
        match MinRemaining(items)
        case Some(i) => Some(items[i])
        case None => None
  }

  /** The declarative meaning of "index `i` holds the strictest candidate":
      the first blocked one if any is blocked, otherwise the earliest one with
      the smallest `remaining`. */
  ghost predicate IsStrictestAt(items: seq<Candidate>, i: int) {
    && 0 <= i < |items|
    && ValidateRatelimit(items[i])
    && if exists j :: 0 <= j < |items| && ValidBlocked(items[j]) then
         ValidBlocked(items[i]) && forall j :: 0 <= j < i ==> !ValidBlocked(items[j])
       else
         && (forall j :: 0 <= j < |items| && ValidateRatelimit(items[j]) ==>
               Remaining(items[i]) <= Remaining(items[j]))
         && (forall j :: 0 <= j < i && ValidateRatelimit(items[j]) ==>
               Remaining(items[i]) < Remaining(items[j]))
  }

  /** At most one index is the strictest: the rule is deterministic. */
  lemma StrictestIsUnique(items: seq<Candidate>, i: int, k: int)
    requires IsStrictestAt(items, i) && IsStrictestAt(items, k)
    ensures i == k
  {
  }

  /** For an array reply, the selector returns nothing exactly when no
      candidate is well formed, and otherwise returns the candidate at the
      strictest index: a blocked candidate wins even over earlier ones with
      fewer remaining requests; among unblocked ones the smallest
      `remaining` wins, the earliest on ties. */
  lemma LowerRateLimitIsStrictest(items: seq<Candidate>)
    ensures LowerRateLimit(Array(items)).None? <==>
              forall j :: 0 <= j < |items| ==> !ValidateRatelimit(items[j])
    ensures LowerRateLimit(Array(items)).Some? ==>
              exists i :: IsStrictestAt(items, i) && LowerRateLimit(Array(items)).value == items[i]
  {
    FirstBlockedIsFirst(items);
    match FirstBlocked(items)
    case Some(i) =>
      assert IsStrictestAt(items, i);
    case None =>
      MinRemainingIsEarliestMinimum(items);
      if MinRemaining(items).Some? {
        var i := MinRemaining(items).value;
        assert IsStrictestAt(items, i);
      }
  }

  /** `items` with the element at index `k` taken out. */
  function Without(items: seq<Candidate>, k: nat): seq<Candidate>
    requires k < |items|
  {
    items[..k] + items[k + 1..]
  }

  /** Malformed candidates never influence the choice: removing one, wherever
      it sits, leaves the selected candidate unchanged. */
  lemma MalformedIgnored(items: seq<Candidate>, k: nat)
    requires k < |items| && !ValidateRatelimit(items[k])
    ensures LowerRateLimit(Array(items)) == LowerRateLimit(Array(Without(items, k)))
  {
    FirstBlockedSkips(items, k);
    MinRemainingSkips(items, k);
    var first := FirstBlocked(items);
    if first.Some? {
      WithoutAt(items, k, first.value);
    } else if MinRemaining(items).Some? {
      WithoutAt(items, k, MinRemaining(items).value);
    }
  }

  /** Taking out index `k` moves every other element to its shifted index. */
  lemma WithoutAt(items: seq<Candidate>, k: nat, i: nat)
    requires k < |items| && i < |items| && i != k
    ensures Shifted(Some(i), k).value < |Without(items, k)|
    ensures Without(items, k)[Shifted(Some(i), k).value] == items[i]
  {
  }

  /** Taking out a malformed candidate shifts the first blocked index past it. */
  lemma {:induction false} FirstBlockedSkips(items: seq<Candidate>, k: nat)
    requires k < |items| && !ValidateRatelimit(items[k])
    ensures FirstBlocked(Without(items, k)) == Shifted(FirstBlocked(items), k)
    decreases k
  {
    var rest := Without(items, k);
    if k == 0 {
      assert rest == items[1..];
    } else {
      assert rest[0] == items[0];
      assert rest[1..] == Without(items[1..], k - 1);
      FirstBlockedSkips(items[1..], k - 1);
      var tail := FirstBlocked(items[1..]);
      assert items[1..][k - 1] == items[k];
      PreferBlockedSkips(items[0], tail, k);
    }
  }

  /** One step of `FirstBlockedSkips`: the head weighed against the
      renumbered first blocked index of the tail. */
  lemma PreferBlockedSkips(head: Candidate, tail: Option<nat>, k: nat)
    requires 0 < k && (tail.Some? ==> tail.value != k - 1)
    ensures PreferBlocked(head, Shifted(tail, k - 1)) == Shifted(PreferBlocked(head, tail), k)
  {
  }

  /** Taking out a malformed candidate shifts the smallest-remaining index past it. */
  lemma {:induction false} MinRemainingSkips(items: seq<Candidate>, k: nat)
    requires k < |items| && !ValidateRatelimit(items[k])
    ensures MinRemaining(Without(items, k)) == Shifted(MinRemaining(items), k)
    decreases k
  {
    var rest := Without(items, k);
    if k == 0 {
      assert rest == items[1..];
    } else {
      assert rest[0] == items[0];
      assert rest[1..] == Without(items[1..], k - 1);
      MinRemainingSkips(items[1..], k - 1);
      PreferSkips(items, k, MinRemaining(items[1..]));
    }
  }

  /** One step of `MinRemainingSkips`: the head weighed against the
      renumbered best index of the tail. */
  lemma PreferSkips(items: seq<Candidate>, k: nat, tail: Option<nat>)
    requires 0 < k < |items| && !ValidateRatelimit(items[k])
    requires tail.Some? ==> tail.value + 1 < |items| && ValidateRatelimit(items[tail.value + 1])
    ensures Shifted(tail, k - 1).Some? ==>
              Shifted(tail, k - 1).value + 1 < |Without(items, k)|
              && Without(items, k)[Shifted(tail, k - 1).value + 1] == items[tail.value + 1]
    ensures Prefer(Without(items, k), Shifted(tail, k - 1)) == Shifted(Prefer(items, tail), k)
  {
  }

  /** An index into a sequence, renumbered after the element at `k` is taken out. */
  function Shifted(r: Option<nat>, k: nat): Option<nat> {
    match r
    case None => None
    case Some(i) => Some(if i < k then i else if i == 0 then 0 else i - 1)
  }

  /** `getLowerRateLimit`: one pass over the reply that remembers the index
      and value of the smallest `remaining` seen so far, skips malformed
      candidates, and stops at the first blocked one. */
  method GetLowerRateLimit(rateLimits: Reply) returns (r: Option<Candidate>)
    ensures r == LowerRateLimit(rateLimits)
  {
    if rateLimits.NotArray? || |rateLimits.items| == 0 {
      return None;
    }
    var items := rateLimits.items;
    var minIndex: Option<nat> := None;
    var minRemainingValue: Option<int> := None;
    var currentIndex := 0;
    while currentIndex < |items|
      invariant 0 <= currentIndex <= |items|
      invariant forall j :: 0 <= j < currentIndex ==> !ValidBlocked(items[j])
      invariant minIndex.None? <==> minRemainingValue.None?
      invariant minIndex.None? ==> forall j :: 0 <= j < currentIndex ==> !ValidateRatelimit(items[j])
      invariant minIndex.Some? ==>
                  && minIndex.value < currentIndex
                  && ValidateRatelimit(items[minIndex.value])
                  && minRemainingValue.value == Remaining(items[minIndex.value])
                  && (forall j :: 0 <= j < currentIndex && ValidateRatelimit(items[j]) ==>
                        minRemainingValue.value <= Remaining(items[j]))
                  && (forall j :: 0 <= j < minIndex.value && ValidateRatelimit(items[j]) ==>
                        minRemainingValue.value < Remaining(items[j]))
    {
      var rateLimit := items[currentIndex];
      if !ValidateRatelimit(rateLimit) {
        currentIndex := currentIndex + 1;
        continue;
      }
      var isBlocked := rateLimit.fields[0];
      var remaining := rateLimit.fields[2];
      if isBlocked == 1 {
        minIndex := Some(currentIndex);
        break;
      }
      if minRemainingValue.None? || remaining < minRemainingValue.value {
        minIndex := Some(currentIndex);
        minRemainingValue := Some(remaining);
      }
      currentIndex := currentIndex + 1;
    }
    if currentIndex < |items| {
      ScanStopsAtBlocked(items, currentIndex);
    } else {
      ScanEndsUnblocked(items, minIndex);
    }
    if minIndex.Some? {
      r := Some(items[minIndex.value]);
    } else {
      r := None;
    }
  }

  /** The scan stopped at a blocked candidate with no blocked one before it:
      that candidate is the selected one. */
  lemma ScanStopsAtBlocked(items: seq<Candidate>, i: nat)
    requires i < |items| && ValidBlocked(items[i])
    requires forall j :: 0 <= j < i ==> !ValidBlocked(items[j])
    ensures LowerRateLimit(Array(items)) == Some(items[i])
  {
    FirstBlockedIsFirst(items);
  }

  /** The scan ran to the end without meeting a blocked candidate: what it
      kept, the earliest candidate with the fewest remaining or nothing, is
      the selected one. */
  lemma ScanEndsUnblocked(items: seq<Candidate>, m: Option<nat>)
    requires forall j :: 0 <= j < |items| ==> !ValidBlocked(items[j])
    requires m.None? ==> forall j :: 0 <= j < |items| ==> !ValidateRatelimit(items[j])
    requires m.Some? ==>
               && m.value < |items| && ValidateRatelimit(items[m.value])
               && (forall j :: 0 <= j < |items| && ValidateRatelimit(items[j]) ==>
                     Remaining(items[m.value]) <= Remaining(items[j]))
               && (forall j :: 0 <= j < m.value && ValidateRatelimit(items[j]) ==>
                     Remaining(items[m.value]) < Remaining(items[j]))
    ensures LowerRateLimit(Array(items)) == if m.Some? then Some(items[m.value]) else None
  {
    FirstBlockedIsFirst(items);
    MinRemainingIsEarliestMinimum(items);
  }

  // The unit tests' vectors, as facts about the selector.

  /** A single candidate is returned unchanged, blocked or not. */
  lemma SingleLimitReturned()
    ensures LowerRateLimit(Array([Values([0, 3, 1, -1, 1])])) == Some(Values([0, 3, 1, -1, 1]))
    ensures LowerRateLimit(Array([Values([1, 3, 0, 0, 1])])) == Some(Values([1, 3, 0, 0, 1]))
  {
  }

  /** Empty, non-array and wrongly shaped replies select nothing. */
  lemma EmptyOrInvalidSelectNothing()
    ensures LowerRateLimit(Array([])) == None
    ensures LowerRateLimit(NotArray) == None
    ensures LowerRateLimit(Array([Values([])])) == None
    ensures LowerRateLimit(Array([Values([]), Values([])])) == None
    ensures LowerRateLimit(Array([NotAnArray])) == None
    ensures LowerRateLimit(Array([Values([1, 2])])) == None
  {
  }

  /** Five unblocked candidates; the third has one request left. */
  const FiveUnblocked: seq<Candidate> :=
    [Values([0, 3, 2, 0, 1]), Values([0, 3, 3, 0, 1]), Values([0, 3, 1, 0, 1]),
     Values([0, 3, 4, 0, 1]), Values([0, 3, 5, 0, 1])]

  /** The same five with the last one blocked, though it has the most left. */
  const LastBlocked: seq<Candidate> :=
    [Values([0, 3, 2, 0, 1]), Values([0, 3, 3, 0, 1]), Values([0, 3, 1, 0, 1]),
     Values([0, 3, 4, 0, 1]), Values([1, 3, 5, 0, 1])]

  /** A blocked candidate in the middle, ahead of the one with one left. */
  const MiddleBlocked: seq<Candidate> :=
    [Values([0, 3, 2, 0, 1]), Values([0, 3, 3, 0, 1]), Values([1, 3, 5, 0, 1]),
     Values([0, 3, 1, 0, 1]), Values([0, 3, 4, 0, 1])]

  /** Among five unblocked limits, the one with one request left is chosen. */
  lemma FewestRemainingChosen()
    ensures LowerRateLimit(Array(FiveUnblocked)) == Some(Values([0, 3, 1, 0, 1]))
  {
    assert FirstBlocked(FiveUnblocked) == None;
    assert MinRemaining(FiveUnblocked[3..]) == Some(0);
    assert MinRemaining(FiveUnblocked) == Some(2);
  }

  /** A blocked limit wins even when it is last and has the most left. */
  lemma LastBlockedChosen()
    ensures LowerRateLimit(Array(LastBlocked)) == Some(Values([1, 3, 5, 0, 1]))
  {
    assert FirstBlocked(LastBlocked) == Some(4);
  }

  /** A blocked limit wins even ahead of one with fewer left. */
  lemma MiddleBlockedChosen()
    ensures LowerRateLimit(Array(MiddleBlocked)) == Some(Values([1, 3, 5, 0, 1]))
  {
    assert FirstBlocked(MiddleBlocked) == Some(2);
  }
}
