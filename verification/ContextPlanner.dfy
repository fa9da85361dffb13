// Budgeted context selection (context-planner/src/lib.rs): a greedy choice over
// caller-owned index arrays, proved to be a maximal, order-independent plan.
module ContextPlanner {
  import opened Common

  datatype Persistence = Pinned | Retained | Ephemeral

  datatype Entry = Entry(id: nat, ordinal: nat, priority: nat, persistence: Persistence, tokens: u32)

  datatype ContextBudget = ContextBudget(maximumTokens: u32, reservedOutput: u32) {
    function Available(): u32 {
      SaturatingSub(maximumTokens, reservedOutput)
    }
  }

  datatype PlanningError =
    | DuplicateEntryId(id: nat)
    | PinnedBudgetExceeded(requiredTokens: nat, availableTokens: nat)
    | WorkspaceCapacity(required: nat, available: nat)

  datatype ContextPlan = ContextPlan(selected: seq<nat>, dropped: seq<nat>, inputTokens: nat, reservedOutput: nat, maximumTokens: nat)

  type Outcome<T> = Result<T, PlanningError>

  // ----- The two orders -----

  datatype Order = ByCandidate | ByOrdinal

  function Rank(p: Persistence): nat {
    match p
    case Pinned => 2
    case Retained => 1
    case Ephemeral => 0
  }

  // candidate_order and ordinal_order, as "strictly before".
  predicate Before(order: Order, a: Entry, b: Entry) {
    match order
    case ByCandidate =>
      || a.priority > b.priority
      || (a.priority == b.priority && Rank(a.persistence) > Rank(b.persistence))
      || (a.priority == b.priority && Rank(a.persistence) == Rank(b.persistence) && a.ordinal > b.ordinal)
      || (a.priority == b.priority && Rank(a.persistence) == Rank(b.persistence) && a.ordinal == b.ordinal && a.id < b.id)
    case ByOrdinal => a.ordinal < b.ordinal || (a.ordinal == b.ordinal && a.id < b.id)
  }

  ghost predicate UniqueIds(entries: seq<Entry>) {
    forall i, j :: 0 <= i < j < |entries| ==> entries[i].id != entries[j].id
  }

  // Strictly increasing, hence without repetition.
  ghost predicate Ascending(order: Order, s: seq<Entry>) {
    forall i, j :: 0 <= i < j < |s| ==> Before(order, s[i], s[j])
  }

  lemma TailMembers(order: Order, s: seq<Entry>)
    requires Ascending(order, s) && s != []
    ensures forall e :: e in s[1..] <==> e in s && e != s[0]
  {
    assert s == [s[0]] + s[1..];
    assert forall k :: 0 < k < |s| ==> Before(order, s[0], s[k]);
  }

  lemma {:induction false} AscendingIsUnique(order: Order, a: seq<Entry>, b: seq<Entry>)
    requires Ascending(order, a) && Ascending(order, b)
    requires forall e :: e in a <==> e in b
    ensures a == b
    decreases |a|
  {
    assert b != [] ==> b[0] in a;
    if a == [] {
    } else {
      assert a[0] in a && b != [];
      assert b[0] in b;
      var p, q :| 0 <= p < |b| && b[p] == a[0] && 0 <= q < |a| && a[q] == b[0];
      assert a[0] == b[0];
      TailMembers(order, a);
      TailMembers(order, b);
      AscendingIsUnique(order, a[1..], b[1..]);
    }
  }

  // ----- Indices and entries -----

  ghost predicate InRange(entries: seq<Entry>, indices: seq<nat>) {
    forall k :: 0 <= k < |indices| ==> indices[k] < |entries|
  }

  ghost function At(entries: seq<Entry>, indices: seq<nat>): (s: seq<Entry>)
    requires InRange(entries, indices)
    ensures |s| == |indices| && forall k :: 0 <= k < |s| ==> s[k] == entries[indices[k]]
  {
    seq(|indices|, k requires 0 <= k < |indices| => entries[indices[k]])
  }

  lemma AtAppend(entries: seq<Entry>, indices: seq<nat>, i: nat)
    requires InRange(entries, indices) && i < |entries|
    ensures InRange(entries, indices + [i]) && At(entries, indices + [i]) == At(entries, indices) + [entries[i]]
  {
  }

  lemma AtConcat(entries: seq<Entry>, a: seq<nat>, b: seq<nat>)
    requires InRange(entries, a) && InRange(entries, b)
    ensures InRange(entries, a + b) && At(entries, a + b) == At(entries, a) + At(entries, b)
  {
  }

  ghost predicate Distinct(indices: seq<nat>) {
    forall i, j :: 0 <= i < j < |indices| ==> indices[i] != indices[j]
  }

  function TotalTokens(s: seq<Entry>): nat {
    if s == [] then 0 else TotalTokens(s[..|s| - 1]) + s[|s| - 1].tokens
  }

  lemma {:induction false} TotalOfConcat(a: seq<Entry>, b: seq<Entry>)
    ensures TotalTokens(a + b) == TotalTokens(a) + TotalTokens(b)
    decreases |b|
  {
    if b == [] {
      assert a + b == a;
    } else {
      TotalOfConcat(a, b[..|b| - 1]);
      assert (a + b)[..|a + b| - 1] == a + b[..|b| - 1];
    }
  }

  // ----- Sorting -----

  // Inserts an index before the first entry it must precede.
  ghost function Insert(order: Order, entries: seq<Entry>, sorted: seq<nat>, i: nat): seq<nat>
    requires InRange(entries, sorted) && i < |entries|
  {
    if sorted == [] || !Before(order, entries[i], entries[sorted[|sorted| - 1]]) then sorted + [i]
    else Insert(order, entries, sorted[..|sorted| - 1], i) + [sorted[|sorted| - 1]]
  }

  lemma {:induction false} InsertMembers(order: Order, entries: seq<Entry>, sorted: seq<nat>, i: nat)
    requires InRange(entries, sorted) && i < |entries|
    ensures var r := Insert(order, entries, sorted, i);
            && |r| == |sorted| + 1 && InRange(entries, r)
            && multiset(r) == multiset(sorted) + multiset{i}
    decreases |sorted|
  {
    if sorted == [] || !Before(order, entries[i], entries[sorted[|sorted| - 1]]) {
    } else {
      InsertMembers(order, entries, sorted[..|sorted| - 1], i);
      assert sorted == sorted[..|sorted| - 1] + [sorted[|sorted| - 1]];
    }
  }

  lemma AppendAscends(order: Order, s: seq<Entry>, e: Entry)
    requires Ascending(order, s) && forall k :: 0 <= k < |s| ==> Before(order, s[k], e)
    ensures Ascending(order, s + [e])
  {
    hide Before;
  }

  // Everything inserted among entries before `last` is before `last`.
  lemma InsertedBefore(order: Order, entries: seq<Entry>, sorted: seq<nat>, i: nat, last: Entry)
    requires InRange(entries, sorted) && i < |entries|
    requires forall k :: 0 <= k < |sorted| ==> Before(order, entries[sorted[k]], last)
    requires Before(order, entries[i], last)
    ensures InRange(entries, Insert(order, entries, sorted, i))
    ensures forall k :: 0 <= k < |Insert(order, entries, sorted, i)| ==> Before(order, entries[Insert(order, entries, sorted, i)[k]], last)
  {
    hide Before, Insert;
    InsertMembers(order, entries, sorted, i);
    var r := Insert(order, entries, sorted, i);
    forall k | 0 <= k < |r|
      ensures Before(order, entries[r[k]], last)
    {
      assert r[k] in multiset(r);
      assert r[k] in multiset(sorted) + multiset{i};
      if r[k] != i {
        assert r[k] in multiset(sorted);
        var j :| 0 <= j < |sorted| && sorted[j] == r[k];
      }
    }
  }

  lemma {:induction false} InsertAscends(order: Order, entries: seq<Entry>, sorted: seq<nat>, i: nat)
    requires UniqueIds(entries) && InRange(entries, sorted) && i < |entries| && i !in sorted
    requires Ascending(order, At(entries, sorted))
    ensures InRange(entries, Insert(order, entries, sorted, i))
    ensures Ascending(order, At(entries, Insert(order, entries, sorted, i)))
    decreases |sorted|
  {
    hide Before, UniqueIds;
    InsertMembers(order, entries, sorted, i);
    var r, s := Insert(order, entries, sorted, i), At(entries, sorted);
    if sorted == [] {
      assert At(entries, r) == [] + [entries[i]];
      AppendAscends(order, [], entries[i]);
    } else {
      var last, shorter := sorted[|sorted| - 1], sorted[..|sorted| - 1];
      TotalOrder(order, entries, i, last);
      var inner := Insert(order, entries, shorter, i);
      assert At(entries, shorter) == s[..|s| - 1];
      if Before(order, entries[i], entries[last]) {
        InsertAscends(order, entries, shorter, i);
        BeforeLast(order, s);
        InsertedBefore(order, entries, shorter, i, entries[last]);
        AppendAscends(order, At(entries, inner), entries[last]);
        assert At(entries, r) == At(entries, inner) + [entries[last]];
      } else {
        AllBefore(order, s, entries[i]);
        AppendAscends(order, s, entries[i]);
        assert At(entries, r) == s + [entries[i]];
      }
    }
  }

  lemma BeforeLast(order: Order, s: seq<Entry>)
    requires Ascending(order, s) && s != []
    ensures forall k :: 0 <= k < |s| - 1 ==> Before(order, s[k], s[|s| - 1])
  {
    hide Before;
  }

  lemma AllBefore(order: Order, s: seq<Entry>, e: Entry)
    requires Ascending(order, s) && s != [] && Before(order, s[|s| - 1], e)
    ensures forall k :: 0 <= k < |s| ==> Before(order, s[k], e)
  {
    forall k | 0 <= k < |s| - 1
      ensures Before(order, s[k], e)
    {
      Transitive(order, s[k], s[|s| - 1], e);
    }
    hide Before;
  }

  lemma TotalOrder(order: Order, entries: seq<Entry>, i: nat, j: nat)
    requires UniqueIds(entries) && i < |entries| && j < |entries| && i != j
    ensures Before(order, entries[i], entries[j]) <==> !Before(order, entries[j], entries[i])
  {
    assert entries[i].id != entries[j].id;
  }

  lemma Transitive(order: Order, a: Entry, b: Entry, c: Entry)
    requires Before(order, a, b) && Before(order, b, c)
    ensures Before(order, a, c)
  {
  }

  // The result of sort_unstable_by; no two entries compare equal, so it is unique.
  ghost function Sorted(order: Order, entries: seq<Entry>, indices: seq<nat>): (r: seq<nat>)
    requires InRange(entries, indices)
    ensures InRange(entries, r) && |r| == |indices| && multiset(r) == multiset(indices)
  {
    if indices == [] then []
    else
      var n := |indices| - 1;
      var rest := Sorted(order, entries, indices[..n]);
      InsertMembers(order, entries, rest, indices[n]);
      assert indices == indices[..n] + [indices[n]];
      Insert(order, entries, rest, indices[n])
  }

  lemma SameMembers(a: seq<nat>, b: seq<nat>)
    requires multiset(a) == multiset(b)
    ensures forall x :: x in a <==> x in b
  {
    forall x
      ensures x in a <==> x in b
    {
      assert x in a <==> x in multiset(a);
      assert x in b <==> x in multiset(b);
    }
  }

  lemma {:induction false} SortedAscends(order: Order, entries: seq<Entry>, indices: seq<nat>)
    requires UniqueIds(entries) && InRange(entries, indices) && Distinct(indices)
    ensures Ascending(order, At(entries, Sorted(order, entries, indices)))
    decreases |indices|
  {
    hide Before;
    if indices != [] {
      var n := |indices| - 1;
      SortedAscends(order, entries, indices[..n]);
      SameMembers(indices[..n], Sorted(order, entries, indices[..n]));
      InsertAscends(order, entries, Sorted(order, entries, indices[..n]), indices[n]);
    }
  }

  // ----- The plan as a function of its inputs -----

  // The indices below n that are pinned, or that are not, in index order.
  function WithPersistence(entries: seq<Entry>, pinned: bool, n: nat): (r: seq<nat>)
    requires n <= |entries|
    ensures |r| <= n && forall k :: 0 <= k < |r| ==> r[k] < n
  {
    if n == 0 then []
    else WithPersistence(entries, pinned, n - 1) + if entries[n - 1].persistence.Pinned? == pinned then [n - 1] else []
  }

  // The greedy pass over entries in candidate order: those taken and those left.
  function Greedy(s: seq<Entry>, used: nat, available: nat): (seq<Entry>, seq<Entry>) {
    if s == [] then ([], [])
    else
      var before := Greedy(s[..|s| - 1], used, available);
      var last := s[|s| - 1];
      if used + TotalTokens(before.0) + last.tokens <= available then (before.0 + [last], before.1) else (before.0, before.1 + [last])
  }

  // The same pass over indices.
  ghost function GreedyIndices(entries: seq<Entry>, indices: seq<nat>, used: nat, available: nat): (r: (seq<nat>, seq<nat>))
    requires InRange(entries, indices)
    ensures InRange(entries, r.0) && InRange(entries, r.1)
    ensures multiset(r.0) + multiset(r.1) == multiset(indices)
    ensures |r.0| + |r.1| == |indices|
  {
    if indices == [] then ([], [])
    else
      var n := |indices| - 1;
      var before := GreedyIndices(entries, indices[..n], used, available);
      assert indices == indices[..n] + [indices[n]];
      if used + TotalTokens(At(entries, before.0)) + entries[indices[n]].tokens <= available
      then (before.0 + [indices[n]], before.1) else (before.0, before.1 + [indices[n]])
  }

  lemma {:induction false} GreedyAgrees(entries: seq<Entry>, indices: seq<nat>, used: nat, available: nat)
    requires InRange(entries, indices)
    ensures var r := GreedyIndices(entries, indices, used, available);
            Greedy(At(entries, indices), used, available) == (At(entries, r.0), At(entries, r.1))
    decreases |indices|
  {
    hide TotalTokens;
    if indices != [] {
      var n := |indices| - 1;
      GreedyAgrees(entries, indices[..n], used, available);
      var before := GreedyIndices(entries, indices[..n], used, available);
      assert indices == indices[..n] + [indices[n]];
      AtAppend(entries, indices[..n], indices[n]);
      AtAppend(entries, before.0, indices[n]);
      AtAppend(entries, before.1, indices[n]);
      assert (At(entries, indices[..n]) + [entries[indices[n]]])[..n] == At(entries, indices[..n]);
    }
  }

  ghost function PinnedTokens(entries: seq<Entry>): nat {
    TotalTokens(At(entries, WithPersistence(entries, true, |entries|)))
  }

  ghost function Candidates(entries: seq<Entry>): (r: seq<nat>)
    ensures InRange(entries, r)
  {
    Sorted(ByCandidate, entries, WithPersistence(entries, false, |entries|))
  }

  ghost function Choice(entries: seq<Entry>, budget: ContextBudget): (r: (seq<nat>, seq<nat>))
    ensures InRange(entries, r.0) && InRange(entries, r.1)
  {
    GreedyIndices(entries, Candidates(entries), PinnedTokens(entries), budget.Available())
  }

  ghost function PlanFor(entries: seq<Entry>, budget: ContextBudget): ContextPlan {
    var choice := Choice(entries, budget);
    var chosen := WithPersistence(entries, true, |entries|) + choice.0;
    ContextPlan(Sorted(ByOrdinal, entries, chosen), Sorted(ByOrdinal, entries, choice.1),
                PinnedTokens(entries) + TotalTokens(At(entries, choice.0)), budget.reservedOutput, budget.maximumTokens)
  }

  // ----- What a plan promises -----

  lemma {:induction false} WithPersistenceIs(entries: seq<Entry>, pinned: bool, n: nat)
    requires n <= |entries|
    ensures Distinct(WithPersistence(entries, pinned, n))
    ensures forall i :: i in WithPersistence(entries, pinned, n) <==> 0 <= i < n && entries[i].persistence.Pinned? == pinned
  {
    if n > 0 {
      WithPersistenceIs(entries, pinned, n - 1);
    }
  }

  ghost predicate Partitions(n: nat, a: seq<nat>, b: seq<nat>) {
    && Distinct(a) && Distinct(b)
    && forall i :: (i in a || i in b <==> 0 <= i < n) && !(i in a && i in b)
  }

  lemma CountsOfDistinct(s: seq<nat>)
    ensures Distinct(s) <==> forall x :: multiset(s)[x] <= 1
  {
    if Distinct(s) {
      DistinctCounts(s);
    } else {
      var i, j :| 0 <= i < j < |s| && s[i] == s[j];
      assert s == s[..i] + [s[i]] + s[i + 1..j] + [s[j]] + s[j + 1..];
      assert multiset(s)[s[i]] >= 2;
    }
  }

  lemma {:induction false} DistinctCounts(s: seq<nat>)
    requires Distinct(s)
    ensures forall x :: multiset(s)[x] <= 1
    decreases |s|
  {
    if s != [] {
      var last := s[|s| - 1];
      DistinctCounts(s[..|s| - 1]);
      assert s == s[..|s| - 1] + [last];
      assert last !in s[..|s| - 1];
    }
  }

  lemma PlanMembers(entries: seq<Entry>, budget: ContextBudget, i: nat)
    ensures var p := PlanFor(entries, budget);
            && multiset(p.selected)[i] <= 1 && multiset(p.dropped)[i] <= 1
            && (i in p.selected || i in p.dropped <==> i < |entries|)
            && !(i in p.selected && i in p.dropped)
            && (i < |entries| && entries[i].persistence.Pinned? ==> i in p.selected)
  {
    hide GreedyIndices, Sorted, WithPersistence, Distinct;
    var pinned, others, choice := WithPersistence(entries, true, |entries|), WithPersistence(entries, false, |entries|), Choice(entries, budget);
    var p := PlanFor(entries, budget);
    WithPersistenceIs(entries, true, |entries|);
    WithPersistenceIs(entries, false, |entries|);
    CountsOfDistinct(pinned);
    CountsOfDistinct(others);
    assert multiset(choice.0) + multiset(choice.1) == multiset(others);
    assert multiset(pinned + choice.0) == multiset(pinned) + multiset(choice.0);
    MembersByCount(i, p.selected, p.dropped, pinned, choice.0, choice.1, others);
  }

  // Selected and dropped partition the entries, and every pinned one is selected.
  lemma PlanPartitions(entries: seq<Entry>, budget: ContextBudget)
    ensures var p := PlanFor(entries, budget);
            && Partitions(|entries|, p.selected, p.dropped)
            && forall i :: 0 <= i < |entries| && entries[i].persistence.Pinned? ==> i in p.selected
  {
    hide PlanFor, Distinct;
    var p := PlanFor(entries, budget);
    forall i: nat
      ensures multiset(p.selected)[i] <= 1 && multiset(p.dropped)[i] <= 1
      ensures i in p.selected || i in p.dropped <==> i < |entries|
      ensures !(i in p.selected && i in p.dropped)
      ensures i < |entries| && entries[i].persistence.Pinned? ==> i in p.selected
    {
      PlanMembers(entries, budget, i);
    }
    CountsOfDistinct(p.selected);
    CountsOfDistinct(p.dropped);
  }

  lemma MembersByCount(i: nat, selected: seq<nat>, dropped: seq<nat>, pinned: seq<nat>, taken: seq<nat>, left: seq<nat>, others: seq<nat>)
    requires multiset(selected) == multiset(pinned) + multiset(taken)
    requires multiset(dropped) == multiset(left)
    requires multiset(taken) + multiset(left) == multiset(others)
    requires multiset(others)[i] <= 1 && multiset(pinned)[i] <= 1 && !(i in pinned && i in others)
    ensures i in selected <==> i in pinned || i in taken
    ensures i in dropped <==> i in left
    ensures i in others <==> i in taken || i in left
    ensures !(i in taken && i in left)
    ensures multiset(selected)[i] <= 1 && multiset(dropped)[i] <= 1
  {
    assert i in selected <==> multiset(selected)[i] > 0;
    assert i in dropped <==> multiset(dropped)[i] > 0;
    assert i in pinned <==> multiset(pinned)[i] > 0;
    assert i in taken <==> multiset(taken)[i] > 0;
    assert i in left <==> multiset(left)[i] > 0;
    assert i in others <==> multiset(others)[i] > 0;
  }

  // Both index lists come out in (ordinal, id) order.
  lemma PlanIsOrdered(entries: seq<Entry>, budget: ContextBudget)
    requires UniqueIds(entries)
    ensures var p := PlanFor(entries, budget);
            && InRange(entries, p.selected) && InRange(entries, p.dropped)
            && Ascending(ByOrdinal, At(entries, p.selected)) && Ascending(ByOrdinal, At(entries, p.dropped))
  {
    hide GreedyIndices, Sorted, WithPersistence, UniqueIds;
    PlanPartitions(entries, budget);
    var p, choice := PlanFor(entries, budget), Choice(entries, budget);
    var chosen := WithPersistence(entries, true, |entries|) + choice.0;
    DistinctLike(p.selected, chosen);
    DistinctLike(p.dropped, choice.1);
    SortedAscends(ByOrdinal, entries, chosen);
    SortedAscends(ByOrdinal, entries, choice.1);
  }

  lemma DistinctLike(a: seq<nat>, b: seq<nat>)
    requires Distinct(a) && multiset(a) == multiset(b)
    ensures Distinct(b)
  {
    CountsOfDistinct(a);
    CountsOfDistinct(b);
  }

  function Without(s: seq<nat>, k: nat): seq<nat>
    requires k < |s|
  {
    s[..k] + s[k + 1..]
  }

  lemma WithoutOne(s: seq<nat>, k: nat)
    requires k < |s|
    ensures multiset(s) == multiset(Without(s, k)) + multiset{s[k]}
  {
    assert s == s[..k] + [s[k]] + s[k + 1..];
  }

  lemma TotalWithout(entries: seq<Entry>, s: seq<nat>, k: nat)
    requires InRange(entries, s) && k < |s|
    ensures InRange(entries, Without(s, k))
    ensures TotalTokens(At(entries, s)) == TotalTokens(At(entries, Without(s, k))) + entries[s[k]].tokens
  {
    hide TotalTokens;
    var a, x, b := s[..k], [s[k]], s[k + 1..];
    assert s == a + (x + b);
    AtConcat(entries, x, b);
    AtConcat(entries, a, x + b);
    AtConcat(entries, a, b);
    TotalOfConcat(At(entries, a), At(entries, x + b));
    TotalOfConcat(At(entries, x), At(entries, b));
    TotalOfConcat(At(entries, a), At(entries, b));
    NoTokens();
    OneMoreToken(entries, [], s[k]);
    assert [] + [s[k]] == x && At(entries, []) == [];
  }

  lemma Cancel(a: multiset<nat>, b: multiset<nat>, c: multiset<nat>)
    requires a + c == b + c
    ensures a == b
  {
    forall x: nat
      ensures a[x] == b[x]
    {
      assert (a + c)[x] == a[x] + c[x] && (b + c)[x] == b[x] + c[x];
    }
  }

  lemma {:induction false} TotalOfPermuted(entries: seq<Entry>, a: seq<nat>, b: seq<nat>)
    requires InRange(entries, a) && InRange(entries, b) && multiset(a) == multiset(b) && |a| == |b|
    ensures TotalTokens(At(entries, a)) == TotalTokens(At(entries, b))
    decreases |a|
  {
    hide TotalTokens;
    if a == [] {
      assert At(entries, a) == At(entries, b);
    } else {
      SameMembers(a, b);
      assert a[0] in a;
      var k :| 0 <= k < |b| && b[k] == a[0];
      TotalWithout(entries, a, 0);
      TotalWithout(entries, b, k);
      WithoutOne(a, 0);
      WithoutOne(b, k);
      Cancel(multiset(Without(a, 0)), multiset(Without(b, k)), multiset{a[0]});
      TotalOfPermuted(entries, Without(a, 0), Without(b, k));
    }
  }

  // The token total is exactly that of the selected entries, and within the budget
  // whenever the pinned entries alone are.
  lemma PlanFits(entries: seq<Entry>, budget: ContextBudget)
    ensures var p := PlanFor(entries, budget);
            && InRange(entries, p.selected)
            && p.inputTokens == TotalTokens(At(entries, p.selected))
            && (PinnedTokens(entries) <= budget.Available() ==> p.inputTokens <= budget.Available() <= U32_MAX)
  {
    hide GreedyIndices, Sorted, WithPersistence;
    var p, choice, pinned := PlanFor(entries, budget), Choice(entries, budget), WithPersistence(entries, true, |entries|);
    TotalOfPermuted(entries, p.selected, pinned + choice.0);
    assert At(entries, pinned + choice.0) == At(entries, pinned) + At(entries, choice.0);
    TotalOfConcat(At(entries, pinned), At(entries, choice.0));
    if PinnedTokens(entries) <= budget.Available() {
      GreedyFits(entries, Candidates(entries), PinnedTokens(entries), budget.Available());
    }
  }

  lemma {:induction false} GreedyFits(entries: seq<Entry>, indices: seq<nat>, used: nat, available: nat)
    requires InRange(entries, indices) && used <= available
    ensures used + TotalTokens(At(entries, GreedyIndices(entries, indices, used, available).0)) <= available
    decreases |indices|
  {
    hide TotalTokens;
    if indices == [] {
      NoTokens();
    } else {
      var n := |indices| - 1;
      GreedyFits(entries, indices[..n], used, available);
      OneMoreToken(entries, GreedyIndices(entries, indices[..n], used, available).0, indices[n]);
    }
  }

  // The greedy choice is maximal: a dropped entry does not fit beside what was used and
  // the taken entries that come before it, so it could not be added to the plan either.
  lemma {:induction false} GreedyIsMaximal(s: seq<Entry>, used: nat, available: nat, d: Entry) returns (k: nat)
    requires d in Greedy(s, used, available).1
    ensures k < |s| && s[k] == d
    ensures Greedy(s[..k], used, available).0 <= Greedy(s, used, available).0
    ensures used + TotalTokens(Greedy(s[..k], used, available).0) + d.tokens > available
    decreases |s|
  {
    var n := |s| - 1;
    var before := Greedy(s[..n], used, available);
    if d in before.1 {
      k := GreedyIsMaximal(s[..n], used, available, d);
      assert s[..n][..k] == s[..k];
    } else {
      k := n;
    }
  }

  lemma {:induction false} TotalOfPrefix(a: seq<Entry>, b: seq<Entry>)
    requires a <= b
    ensures TotalTokens(a) <= TotalTokens(b)
  {
    TotalOfConcat(a, b[|a|..]);
    assert b == a + b[|a|..];
  }

  lemma PlanIsMaximal(entries: seq<Entry>, budget: ContextBudget, i: nat) returns (k: nat)
    requires i in PlanFor(entries, budget).dropped
    ensures i < |entries| && PlanFor(entries, budget).inputTokens + entries[i].tokens > budget.Available()
    ensures var s := At(entries, Candidates(entries));
            && k < |s| && s[k] == entries[i]
            && PinnedTokens(entries) + TotalTokens(Greedy(s[..k], PinnedTokens(entries), budget.Available()).0) + entries[i].tokens > budget.Available()
  {
    hide GreedyIndices, Sorted, WithPersistence, Greedy;
    var p, choice := PlanFor(entries, budget), Choice(entries, budget);
    SameMembers(p.dropped, choice.1);
    GreedyAgrees(entries, Candidates(entries), PinnedTokens(entries), budget.Available());
    var s := At(entries, Candidates(entries));
    var j :| 0 <= j < |choice.1| && choice.1[j] == i;
    assert At(entries, choice.1)[j] == entries[i];
    k := GreedyIsMaximal(s, PinnedTokens(entries), budget.Available(), entries[i]);
    TotalOfPrefix(Greedy(s[..k], PinnedTokens(entries), budget.Available()).0, At(entries, choice.0));
  }

  // ----- What a plan is, entry by entry -----

  // The tokens of the entries at some indices.
  ghost function TokensOf(entries: seq<Entry>, chosen: set<nat>): nat {
    if entries == [] then 0
    else
      var n := |entries| - 1;
      TokensOf(entries[..n], chosen) + if n in chosen then entries[n].tokens else 0
  }

  ghost function Members(s: seq<nat>): set<nat> {
    set i | i in s
  }

  // Among unpinned entries: the higher priority goes first, then what is retained, then
  // what is newer, then the smaller id.
  ghost predicate Outranks(a: Entry, b: Entry) {
    || a.priority > b.priority
    || (a.priority == b.priority && a.persistence.Retained? && b.persistence.Ephemeral?)
    || (a.priority == b.priority && a.persistence == b.persistence && a.ordinal > b.ordinal)
    || (a.priority == b.priority && a.persistence == b.persistence && a.ordinal == b.ordinal && a.id < b.id)
  }

  // The selected entries that are considered before entry i.
  ghost function Ahead(entries: seq<Entry>, selected: seq<nat>, i: nat): set<nat>
    requires InRange(entries, selected) && i < |entries|
  {
    set j | j in selected && (entries[j].persistence.Pinned? || Outranks(entries[j], entries[i]))
  }

  ghost function PinnedSet(entries: seq<Entry>): set<nat> {
    set i | 0 <= i < |entries| && entries[i].persistence.Pinned?
  }

  ghost function Room(budget: ContextBudget): nat {
    if budget.maximumTokens >= budget.reservedOutput then budget.maximumTokens - budget.reservedOutput else 0
  }

  // Every entry is selected or dropped; a pinned one is selected, and another one exactly
  // when it fits beside the selected entries ahead of it. Both lists go by ordinal, then id.
  ghost predicate IsPlan(entries: seq<Entry>, budget: ContextBudget, p: ContextPlan) {
    && InRange(entries, p.selected) && InRange(entries, p.dropped)
    && (forall i :: 0 <= i < |entries| ==> (i in p.selected <==> i !in p.dropped))
    && (forall i :: 0 <= i < |entries| ==>
          (i in p.selected <==> entries[i].persistence.Pinned? || TokensOf(entries, Ahead(entries, p.selected, i)) + entries[i].tokens <= Room(budget)))
    && ByOrdinalThenId(entries, p.selected) && ByOrdinalThenId(entries, p.dropped)
    && p.inputTokens == TokensOf(entries, Members(p.selected)) <= Room(budget)
    && p.reservedOutput == budget.reservedOutput && p.maximumTokens == budget.maximumTokens
  }

  ghost predicate ByOrdinalThenId(entries: seq<Entry>, indices: seq<nat>)
    requires InRange(entries, indices)
  {
    forall a, b :: 0 <= a < b < |indices| ==>
      || entries[indices[a]].ordinal < entries[indices[b]].ordinal
      || (entries[indices[a]].ordinal == entries[indices[b]].ordinal && entries[indices[a]].id < entries[indices[b]].id)
  }

  lemma {:induction false} NothingChosen(entries: seq<Entry>)
    ensures TokensOf(entries, {}) == 0
  {
    if entries != [] {
      NothingChosen(entries[..|entries| - 1]);
    }
  }

  lemma {:induction false} OneMoreChosen(entries: seq<Entry>, chosen: set<nat>, i: nat)
    requires i < |entries| && i !in chosen
    ensures TokensOf(entries, chosen + {i}) == TokensOf(entries, chosen) + entries[i].tokens
  {
    var n := |entries| - 1;
    if i < n {
      OneMoreChosen(entries[..n], chosen, i);
    } else {
      BeyondChosen(entries[..n], chosen, i);
    }
  }

  lemma {:induction false} BeyondChosen(entries: seq<Entry>, chosen: set<nat>, i: nat)
    requires i >= |entries|
    ensures TokensOf(entries, chosen + {i}) == TokensOf(entries, chosen)
  {
    if entries != [] {
      BeyondChosen(entries[..|entries| - 1], chosen, i);
    }
  }

  // Adding up distinct indices in any order gives the tokens of their set.
  lemma {:induction false} TotalOfSet(entries: seq<Entry>, indices: seq<nat>)
    requires InRange(entries, indices) && Distinct(indices)
    ensures TotalTokens(At(entries, indices)) == TokensOf(entries, Members(indices))
    decreases |indices|
  {
    hide TotalTokens, TokensOf;
    if indices == [] {
      NoTokens();
      NothingChosen(entries);
      assert Members(indices) == {} && At(entries, indices) == [];
    } else {
      var front, last := indices[..|indices| - 1], indices[|indices| - 1];
      TotalOfSet(entries, front);
      OneMoreToken(entries, front, last);
      OneMoreChosen(entries, Members(front), last);
      assert indices == front + [last];
      assert Members(indices) == Members(front) + {last};
    }
  }

  // The k-th candidate is taken exactly when it fits beside those taken before it.
  lemma {:induction false} GreedyAt(entries: seq<Entry>, indices: seq<nat>, used: nat, available: nat, k: nat)
    requires InRange(entries, indices) && Distinct(indices) && k < |indices|
    ensures var taken, all := GreedyIndices(entries, indices[..k], used, available).0, GreedyIndices(entries, indices, used, available).0;
            && (indices[k] in all <==> used + TotalTokens(At(entries, taken)) + entries[indices[k]].tokens <= available)
            && forall j :: j in taken <==> j in all && j in indices[..k]
    decreases |indices|
  {
    hide TotalTokens, At, GreedyIndices, InRange;
    var n := |indices| - 1;
    var front := indices[..n];
    DistinctFront(entries, indices);
    GreedyStep(entries, indices, used, available);
    if k < n {
      GreedyAt(entries, front, used, available, k);
      assert front[..k] == indices[..k] && front[k] == indices[k];
    } else {
      assert indices[..k] == front;
    }
  }

  lemma DistinctFront(entries: seq<Entry>, indices: seq<nat>)
    requires InRange(entries, indices) && Distinct(indices) && indices != []
    ensures InRange(entries, indices[..|indices| - 1]) && Distinct(indices[..|indices| - 1]) && indices[|indices| - 1] !in indices[..|indices| - 1]
  {
  }

  lemma GreedyStep(entries: seq<Entry>, indices: seq<nat>, used: nat, available: nat)
    requires InRange(entries, indices) && Distinct(indices) && indices != []
    ensures var front, last := indices[..|indices| - 1], indices[|indices| - 1];
            var taken, all := GreedyIndices(entries, front, used, available).0, GreedyIndices(entries, indices, used, available).0;
            && (forall j :: j in taken ==> j in front)
            && (forall j :: j in all <==> j in taken || (j == last && used + TotalTokens(At(entries, taken)) + entries[last].tokens <= available))
  {
    hide TotalTokens, At;
    GreedyMembers(entries, indices[..|indices| - 1], used, available);
  }

  lemma GreedyMembers(entries: seq<Entry>, indices: seq<nat>, used: nat, available: nat)
    requires InRange(entries, indices)
    ensures forall j :: j in GreedyIndices(entries, indices, used, available).0 ==> j in indices
  {
    hide GreedyIndices;
    var r := GreedyIndices(entries, indices, used, available);
    forall j | j in r.0
      ensures j in indices
    {
      assert j in multiset(r.0) + multiset(r.1);
      assert j in multiset(indices);
    }
  }

  // Before the k-th candidate stand exactly those that outrank it.
  lemma PlacedBefore(entries: seq<Entry>, indices: seq<nat>, k: nat, j: nat)
    requires InRange(entries, indices) && Ascending(ByCandidate, At(entries, indices)) && k < |indices| && j in indices
    requires !entries[indices[k]].persistence.Pinned? && !entries[j].persistence.Pinned?
    ensures j in indices[..k] <==> Outranks(entries[j], entries[indices[k]])
  {
    var s := At(entries, indices);
    var p :| 0 <= p < |indices| && indices[p] == j;
    assert p < k ==> Before(ByCandidate, s[p], s[k]);
    assert p > k ==> Before(ByCandidate, s[k], s[p]);
    if q :| 0 <= q < k && indices[q] == j {
      assert Before(ByCandidate, s[q], s[k]);
    }
  }

  lemma CandidatesAre(entries: seq<Entry>)
    requires UniqueIds(entries)
    ensures var c := Candidates(entries);
            && Distinct(c) && Ascending(ByCandidate, At(entries, c))
            && forall i :: i in c <==> 0 <= i < |entries| && !entries[i].persistence.Pinned?
  {
    hide Sorted, WithPersistence, UniqueIds, Ascending, Distinct;
    var others := WithPersistence(entries, false, |entries|);
    WithPersistenceIs(entries, false, |entries|);
    SortedAscends(ByCandidate, entries, others);
    DistinctLike(others, Candidates(entries));
    SameMembers(others, Candidates(entries));
  }

  lemma SelectedAre(entries: seq<Entry>, budget: ContextBudget)
    ensures var p, taken := PlanFor(entries, budget), Choice(entries, budget).0;
            && (forall i :: i in p.selected <==> i in WithPersistence(entries, true, |entries|) || i in taken)
            && (forall i :: i in taken ==> i in Candidates(entries))
  {
    hide GreedyIndices, Sorted, WithPersistence, Distinct;
    var p, choice, pinned := PlanFor(entries, budget), Choice(entries, budget), WithPersistence(entries, true, |entries|);
    SameMembers(p.selected, pinned + choice.0);
    GreedyMembers(entries, Candidates(entries), PinnedTokens(entries), budget.Available());
  }

  // What is ahead of the k-th candidate: the pinned entries and what was taken before it.
  lemma AheadIs(entries: seq<Entry>, budget: ContextBudget, k: nat, taken: seq<nat>)
    requires UniqueIds(entries) && k < |Candidates(entries)|
    requires forall j :: j in taken <==> j in Choice(entries, budget).0 && j in Candidates(entries)[..k]
    ensures InRange(entries, PlanFor(entries, budget).selected)
    ensures Ahead(entries, PlanFor(entries, budget).selected, Candidates(entries)[k]) == Members(WithPersistence(entries, true, |entries|) + taken)
  {
    hide PlanFor, Choice, Candidates, WithPersistence, Ascending, UniqueIds, Outranks;
    var c, pinned, selected, i := Candidates(entries), WithPersistence(entries, true, |entries|), PlanFor(entries, budget).selected, Candidates(entries)[k];
    CandidatesAre(entries);
    SelectedAre(entries, budget);
    WithPersistenceIs(entries, true, |entries|);
    PlanIsOrdered(entries, budget);
    assert i in c;
    forall j: nat
      ensures j in Ahead(entries, selected, i) <==> j in pinned + taken
    {
      if j in c {
        PlacedBefore(entries, c, k, j);
      }
    }
  }

  // An unpinned entry is selected exactly when it fits beside what is ahead of it.
  lemma SelectedExactly(entries: seq<Entry>, budget: ContextBudget, i: nat)
    requires UniqueIds(entries) && i < |entries| && !entries[i].persistence.Pinned?
    ensures InRange(entries, PlanFor(entries, budget).selected)
    ensures i in PlanFor(entries, budget).selected
            <==> TokensOf(entries, Ahead(entries, PlanFor(entries, budget).selected, i)) + entries[i].tokens <= Room(budget)
  {
    hide PlanFor, Candidates, WithPersistence, Ascending, UniqueIds, GreedyIndices, TotalTokens, TokensOf, Ahead;
    var c, pinned, used := Candidates(entries), WithPersistence(entries, true, |entries|), PinnedTokens(entries);
    CandidatesAre(entries);
    SelectedAre(entries, budget);
    WithPersistenceIs(entries, true, |entries|);
    var k :| 0 <= k < |c| && c[k] == i;
    GreedyAt(entries, c, used, budget.Available(), k);
    var taken := GreedyIndices(entries, c[..k], used, budget.Available()).0;
    AheadIs(entries, budget, k, taken);
    TakenDistinct(entries, c[..k], used, budget.Available());
    JoinedTotal(entries, pinned, taken);
  }

  lemma TakenDistinct(entries: seq<Entry>, indices: seq<nat>, used: nat, available: nat)
    requires InRange(entries, indices) && Distinct(indices)
    ensures Distinct(GreedyIndices(entries, indices, used, available).0)
  {
    hide GreedyIndices, Distinct;
    var r := GreedyIndices(entries, indices, used, available);
    CountsOfDistinct(indices);
    forall x: nat
      ensures multiset(r.0)[x] <= 1
    {
      assert (multiset(r.0) + multiset(r.1))[x] == multiset(indices)[x];
    }
    CountsOfDistinct(r.0);
  }

  lemma JoinedTotal(entries: seq<Entry>, a: seq<nat>, b: seq<nat>)
    requires InRange(entries, a) && InRange(entries, b) && Distinct(a) && Distinct(b) && forall j :: j in a ==> j !in b
    ensures TokensOf(entries, Members(a + b)) == TotalTokens(At(entries, a)) + TotalTokens(At(entries, b))
  {
    hide TotalTokens, TokensOf;
    forall i, j | 0 <= i < j < |a + b|
      ensures (a + b)[i] != (a + b)[j]
    {
      if i < |a| <= j {
        assert a[i] in a && b[j - |a|] in b;
      }
    }
    TotalOfSet(entries, a + b);
    AtConcat(entries, a, b);
    TotalOfConcat(At(entries, a), At(entries, b));
  }

  lemma PinnedTokensAre(entries: seq<Entry>)
    ensures PinnedTokens(entries) == TokensOf(entries, PinnedSet(entries))
  {
    hide TotalTokens, TokensOf, WithPersistence;
    var pinned := WithPersistence(entries, true, |entries|);
    WithPersistenceIs(entries, true, |entries|);
    TotalOfSet(entries, pinned);
    assert Members(pinned) == PinnedSet(entries);
  }

  // Whenever the pinned entries fit, the computed plan is the one described.
  lemma PlanIsDescribed(entries: seq<Entry>, budget: ContextBudget)
    requires UniqueIds(entries) && TokensOf(entries, PinnedSet(entries)) <= Room(budget)
    ensures IsPlan(entries, budget, PlanFor(entries, budget))
  {
    hide PlanFor, UniqueIds, TokensOf, PinnedTokens, Distinct, Ahead;
    var p := PlanFor(entries, budget);
    PlanPartitions(entries, budget);
    PlanIsOrdered(entries, budget);
    PinnedTokensAre(entries);
    PlanFits(entries, budget);
    TotalOfSet(entries, p.selected);
    PlanEchoes(entries, budget);
    forall i | 0 <= i < |entries| && !entries[i].persistence.Pinned?
      ensures i in p.selected <==> TokensOf(entries, Ahead(entries, p.selected, i)) + entries[i].tokens <= Room(budget)
    {
      SelectedExactly(entries, budget, i);
    }
    OrdinalThenId(entries, p.selected);
    OrdinalThenId(entries, p.dropped);
  }

  lemma PlanEchoes(entries: seq<Entry>, budget: ContextBudget)
    ensures PlanFor(entries, budget).reservedOutput == budget.reservedOutput && PlanFor(entries, budget).maximumTokens == budget.maximumTokens
  {
    hide Choice, Sorted, WithPersistence, PinnedTokens, TotalTokens;
  }

  lemma OrdinalThenId(entries: seq<Entry>, indices: seq<nat>)
    requires InRange(entries, indices) && Ascending(ByOrdinal, At(entries, indices))
    ensures ByOrdinalThenId(entries, indices)
  {
    var s := At(entries, indices);
    assert forall a, b :: 0 <= a < b < |s| ==> Before(ByOrdinal, s[a], s[b]);
  }

  // Two plans for the same entries agree on the first k candidates ...
  lemma {:induction false} SelectedAlike(entries: seq<Entry>, budget: ContextBudget, p: ContextPlan, q: ContextPlan, k: nat)
    requires UniqueIds(entries) && IsPlan(entries, budget, p) && IsPlan(entries, budget, q) && k <= |Candidates(entries)|
    ensures forall j :: j in Candidates(entries)[..k] ==> (j in p.selected <==> j in q.selected)
  {
    hide UniqueIds, Candidates, TokensOf, Outranks, Ascending, ByOrdinalThenId;
    if k > 0 {
      var c := Candidates(entries);
      SelectedAlike(entries, budget, p, q, k - 1);
      CandidatesAre(entries);
      assert c[..k] == c[..k - 1] + [c[k - 1]] && c[k - 1] in c;
      var ours, theirs := Ahead(entries, p.selected, c[k - 1]), Ahead(entries, q.selected, c[k - 1]);
      forall j: nat
        ensures j in ours <==> j in theirs
      {
        if j in c {
          PlacedBefore(entries, c, k - 1, j);
        }
      }
      assert ours == theirs;
    }
  }

  lemma SameIndices(entries: seq<Entry>, a: seq<nat>, b: seq<nat>)
    requires UniqueIds(entries) && InRange(entries, a) && InRange(entries, b) && forall i :: i in a <==> i in b
    requires ByOrdinalThenId(entries, a) && ByOrdinalThenId(entries, b)
    ensures a == b
  {
    SameEntriesAt(entries, a, b);
    SameEntriesAt(entries, b, a);
    AscendingIsUnique(ByOrdinal, At(entries, a), At(entries, b));
    forall k | 0 <= k < |a|
      ensures a[k] == b[k]
    {
      assert At(entries, a)[k] == At(entries, b)[k];
    }
  }

  // ... so the description has exactly one plan, the one computed.
  lemma PlanIsUnique(entries: seq<Entry>, budget: ContextBudget, p: ContextPlan)
    requires UniqueIds(entries) && TokensOf(entries, PinnedSet(entries)) <= Room(budget)
    ensures IsPlan(entries, budget, p) <==> p == PlanFor(entries, budget)
  {
    hide PlanFor, UniqueIds, TokensOf, Candidates, Ahead, ByOrdinalThenId, Ascending;
    PlanIsDescribed(entries, budget);
    var q := PlanFor(entries, budget);
    if IsPlan(entries, budget, p) {
      CandidatesAre(entries);
      var c := Candidates(entries);
      SelectedAlike(entries, budget, p, q, |c|);
      assert c[..|c|] == c;
      assert forall i :: 0 <= i < |entries| ==> (i in p.selected <==> i in q.selected);
      SameIndices(entries, p.selected, q.selected);
      SameIndices(entries, p.dropped, q.dropped);
    }
  }

  // ----- Independence of the input order -----

  lemma SameEntriesAt(entries: seq<Entry>, a: seq<nat>, b: seq<nat>)
    requires InRange(entries, a) && InRange(entries, b)
    requires forall i :: i in a ==> i in b
    ensures forall e :: e in At(entries, a) ==> e in At(entries, b)
  {
    forall e | e in At(entries, a)
      ensures e in At(entries, b)
    {
      var k :| 0 <= k < |a| && At(entries, a)[k] == e;
      assert a[k] in a;
      var j :| 0 <= j < |b| && b[j] == a[k];
      assert At(entries, b)[j] == e;
    }
  }

  // Sorting distinct indices lists exactly their entries, ascending.
  lemma SortedEntries(order: Order, entries: seq<Entry>, indices: seq<nat>)
    requires UniqueIds(entries) && InRange(entries, indices) && Distinct(indices)
    ensures var s := At(entries, Sorted(order, entries, indices));
            Ascending(order, s) && forall e :: e in s <==> e in At(entries, indices)
  {
    hide UniqueIds, Sorted, Ascending;
    SortedAscends(order, entries, indices);
    var r := Sorted(order, entries, indices);
    SameMembers(r, indices);
    SameEntriesAt(entries, r, indices);
    SameEntriesAt(entries, indices, r);
  }

  ghost predicate SameEntries(a: seq<Entry>, b: seq<Entry>) {
    forall e :: e in a <==> e in b
  }

  // Sorted by either order, the pinned entries, or the others, do not depend on the input order.
  lemma SortedAlike(order: Order, a: seq<Entry>, b: seq<Entry>, pinned: bool)
    requires UniqueIds(a) && UniqueIds(b) && SameEntries(a, b)
    ensures At(a, Sorted(order, a, WithPersistence(a, pinned, |a|))) == At(b, Sorted(order, b, WithPersistence(b, pinned, |b|)))
  {
    hide UniqueIds, Sorted, Ascending, WithPersistence, Distinct;
    var s := At(a, Sorted(order, a, WithPersistence(a, pinned, |a|)));
    var t := At(b, Sorted(order, b, WithPersistence(b, pinned, |b|)));
    WithPersistenceIs(a, pinned, |a|);
    WithPersistenceIs(b, pinned, |b|);
    SortedEntries(order, a, WithPersistence(a, pinned, |a|));
    SortedEntries(order, b, WithPersistence(b, pinned, |b|));
    forall e
      ensures e in s <==> e in a && e.persistence.Pinned? == pinned
      ensures e in t <==> e in b && e.persistence.Pinned? == pinned
    {
      EntryOfPersistence(a, pinned, e);
      EntryOfPersistence(b, pinned, e);
    }
    AscendingIsUnique(order, s, t);
  }

  lemma EntryOfPersistence(entries: seq<Entry>, pinned: bool, e: Entry)
    ensures e in At(entries, WithPersistence(entries, pinned, |entries|)) <==> e in entries && e.persistence.Pinned? == pinned
  {
    hide WithPersistence;
    var indices := WithPersistence(entries, pinned, |entries|);
    WithPersistenceIs(entries, pinned, |entries|);
    if e in At(entries, indices) {
      var k :| 0 <= k < |indices| && At(entries, indices)[k] == e;
      assert indices[k] in indices;
    }
    if e in entries && e.persistence.Pinned? == pinned {
      var i :| 0 <= i < |entries| && entries[i] == e;
      assert i in indices;
      var k :| 0 <= k < |indices| && indices[k] == i;
      assert At(entries, indices)[k] == e;
    }
  }

  lemma PinnedAlike(a: seq<Entry>, b: seq<Entry>)
    requires UniqueIds(a) && UniqueIds(b) && SameEntries(a, b)
    ensures PinnedTokens(a) == PinnedTokens(b)
  {
    hide UniqueIds, Sorted, WithPersistence;
    SortedAlike(ByOrdinal, a, b, true);
    var p, q := WithPersistence(a, true, |a|), WithPersistence(b, true, |b|);
    TotalOfPermuted(a, Sorted(ByOrdinal, a, p), p);
    TotalOfPermuted(b, Sorted(ByOrdinal, b, q), q);
  }

  // The greedy choice as entries.
  ghost function ChosenEntries(entries: seq<Entry>, budget: ContextBudget): (seq<Entry>, seq<Entry>) {
    (At(entries, Choice(entries, budget).0), At(entries, Choice(entries, budget).1))
  }

  lemma ChosenAlike(a: seq<Entry>, b: seq<Entry>, budget: ContextBudget)
    requires UniqueIds(a) && UniqueIds(b) && SameEntries(a, b)
    ensures ChosenEntries(a, budget) == ChosenEntries(b, budget)
  {
    hide UniqueIds, Sorted, WithPersistence, GreedyIndices, Greedy, PinnedTokens;
    SortedAlike(ByCandidate, a, b, false);
    PinnedAlike(a, b);
    GreedyAgrees(a, Candidates(a), PinnedTokens(a), budget.Available());
    GreedyAgrees(b, Candidates(b), PinnedTokens(b), budget.Available());
  }

  lemma PlanEntries(entries: seq<Entry>, budget: ContextBudget)
    requires UniqueIds(entries)
    ensures var p, chosen := PlanFor(entries, budget), ChosenEntries(entries, budget);
            && InRange(entries, p.selected) && InRange(entries, p.dropped)
            && (forall e :: e in At(entries, p.selected) <==> (e in entries && e.persistence.Pinned?) || e in chosen.0)
            && (forall e :: e in At(entries, p.dropped) <==> e in chosen.1)
  {
    hide UniqueIds, Sorted, WithPersistence, GreedyIndices, PinnedTokens;
    PlanPartitions(entries, budget);
    var p, choice, pinned := PlanFor(entries, budget), Choice(entries, budget), WithPersistence(entries, true, |entries|);
    DistinctLike(p.selected, pinned + choice.0);
    DistinctLike(p.dropped, choice.1);
    SortedEntries(ByOrdinal, entries, pinned + choice.0);
    SortedEntries(ByOrdinal, entries, choice.1);
    assert At(entries, pinned + choice.0) == At(entries, pinned) + At(entries, choice.0);
    forall e
      ensures e in At(entries, p.selected) <==> (e in entries && e.persistence.Pinned?) || e in At(entries, choice.0)
      ensures e in At(entries, p.dropped) <==> e in At(entries, choice.1)
    {
      EntryOfPersistence(entries, true, e);
    }
  }

  // Listing the same entries in another order gives the same plan: the same entries
  // selected and dropped, in the same order, with the same total.
  lemma PlanIsOrderIndependent(a: seq<Entry>, b: seq<Entry>, budget: ContextBudget)
    requires UniqueIds(a) && UniqueIds(b) && SameEntries(a, b)
    ensures var p, q := PlanFor(a, budget), PlanFor(b, budget);
            && InRange(a, p.selected) && InRange(b, q.selected) && InRange(a, p.dropped) && InRange(b, q.dropped)
            && At(a, p.selected) == At(b, q.selected)
            && At(a, p.dropped) == At(b, q.dropped)
            && p.inputTokens == q.inputTokens
  {
    hide UniqueIds, PlanFor, ChosenEntries, Ascending;
    var p, q := PlanFor(a, budget), PlanFor(b, budget);
    ChosenAlike(a, b, budget);
    PlanEntries(a, budget);
    PlanEntries(b, budget);
    PlanIsOrdered(a, budget);
    PlanIsOrdered(b, budget);
    AscendingIsUnique(ByOrdinal, At(a, p.selected), At(b, q.selected));
    AscendingIsUnique(ByOrdinal, At(a, p.dropped), At(b, q.dropped));
    PlanFits(a, budget);
    PlanFits(b, budget);
  }

  // ----- The algorithm -----

  // Where scanning from the right stops is where Insert puts the index.
  lemma {:induction false} InsertPosition(order: Order, entries: seq<Entry>, sorted: seq<nat>, i: nat, j: nat)
    requires InRange(entries, sorted) && i < |entries| && j <= |sorted|
    requires forall k :: j <= k < |sorted| ==> Before(order, entries[i], entries[sorted[k]])
    requires j > 0 ==> !Before(order, entries[i], entries[sorted[j - 1]])
    ensures Insert(order, entries, sorted, i) == sorted[..j] + [i] + sorted[j..]
    decreases |sorted|
  {
    hide Before;
    if j < |sorted| {
      InsertPosition(order, entries, sorted[..|sorted| - 1], i, j);
      assert sorted[..|sorted| - 1][..j] == sorted[..j];
      assert sorted[j..] == sorted[..|sorted| - 1][j..] + [sorted[|sorted| - 1]];
    } else {
      assert sorted[..j] == sorted && sorted[j..] == [];
    }
  }

  // Moves element n to its place among the n sorted ones before it.
  method InsertElement(order: Order, entries: seq<Entry>, a: array<nat>, n: nat)
    requires n < a.Length && InRange(entries, a[..n + 1])
    modifies a
    ensures InRange(entries, old(a[..n]))
    ensures old(a[n]) < |entries|
    ensures a[..n + 1] == Insert(order, entries, old(a[..n]), old(a[n]))
    ensures forall k :: n < k < a.Length ==> a[k] == old(a[k])
  {
    hide Before, Insert;
    ghost var sorted: seq<nat> := a[..n];
    FrontInRange(entries, a[..n + 1], n);
    assert a[..n + 1][..n] == sorted && a[..n + 1][n] == a[n];
    var x := a[n];
    var j := n;
    while j > 0 && Before(order, entries[x], entries[a[j - 1]])
      invariant 0 <= j <= n
      invariant forall k :: 0 <= k < j ==> a[k] == sorted[k]
      invariant forall k :: j < k <= n ==> a[k] == sorted[k - 1]
      invariant forall k :: n < k < a.Length ==> a[k] == old(a[k])
      invariant forall k :: j <= k < n ==> Before(order, entries[x], entries[sorted[k]])
    {
      a[j] := a[j - 1];
      j := j - 1;
    }
    InsertPosition(order, entries, sorted, x, j);
    a[j] := x;
    Placed(sorted, x, j, a[..n + 1]);
  }

  lemma FrontInRange(entries: seq<Entry>, front: seq<nat>, n: nat)
    requires |front| == n + 1 && InRange(entries, front)
    ensures InRange(entries, front[..n]) && front[n] < |entries|
  {
  }

  lemma Placed(sorted: seq<nat>, x: nat, j: nat, front: seq<nat>)
    requires j <= |sorted| && |front| == |sorted| + 1
    requires forall k :: 0 <= k < j ==> front[k] == sorted[k]
    requires front[j] == x
    requires forall k :: j < k <= |sorted| ==> front[k] == sorted[k - 1]
    ensures front == sorted[..j] + [x] + sorted[j..]
  {
  }

  // sort_unstable_by over the front of an index array. Any sort gives this result; this
  // one inserts element by element.
  method SortIndices(order: Order, entries: seq<Entry>, a: array<nat>, length: nat)
    requires length <= a.Length && InRange(entries, a[..length])
    modifies a
    ensures a[..length] == Sorted(order, entries, old(a[..length]))
  {
    hide Before, Insert;
    ghost var before: seq<nat> := a[..length];
    for n := 0 to length
      invariant a[..n] == Sorted(order, entries, before[..n])
      invariant forall k :: n <= k < length ==> a[k] == before[k]
    {
      assert before[..n + 1][..n] == before[..n];
      InFront(entries, before, Sorted(order, entries, before[..n]), a[..n + 1], n);
      InsertElement(order, entries, a, n);
    }
    assert before[..length] == before;
  }

  lemma InFront(entries: seq<Entry>, before: seq<nat>, sorted: seq<nat>, front: seq<nat>, n: nat)
    requires InRange(entries, before) && n < |before| && InRange(entries, sorted) && |sorted| == n
    requires |front| == n + 1 && front[..n] == sorted && front[n] == before[n]
    ensures InRange(entries, front)
  {
    assert forall k :: 0 <= k < n ==> front[k] == front[..n][k];
  }

  method ValidateUniqueIds(entries: seq<Entry>) returns (r: Outcome<()>)
    ensures r.Ok? <==> UniqueIds(entries)
    ensures r.Err? ==> exists i, j :: 0 <= i < j < |entries| && entries[i].id == entries[j].id && r.error == DuplicateEntryId(entries[i].id)
  {
    for i := 0 to |entries|
      invariant forall a, b :: 0 <= a < i && a < b < |entries| ==> entries[a].id != entries[b].id
    {
      if j :| i < j < |entries| && entries[j].id == entries[i].id {
        return Err(DuplicateEntryId(entries[i].id));
      }
    }
    return Ok(());
  }

  // Splits the entries into pinned ones and candidates.
  method SplitPinned(entries: seq<Entry>, ordering: array<nat>, selected: array<nat>)
    returns (pinnedTokens: nat, selectedLength: nat, candidateLength: nat)
    requires |entries| <= ordering.Length && |entries| <= selected.Length && ordering != selected
    modifies ordering, selected
    ensures selectedLength + candidateLength == |entries|
    ensures selected[..selectedLength] == WithPersistence(entries, true, |entries|)
    ensures ordering[..candidateLength] == WithPersistence(entries, false, |entries|)
    ensures pinnedTokens == Min(U64_MAX, PinnedTokens(entries))
  {
    hide TotalTokens, WithPersistence;
    pinnedTokens, selectedLength, candidateLength := 0, 0, 0;
    NoTokens();
    NonePersistent(entries);
    for i := 0 to |entries|
      invariant selectedLength + candidateLength == i
      invariant selected[..selectedLength] == WithPersistence(entries, true, i)
      invariant ordering[..candidateLength] == WithPersistence(entries, false, i)
      invariant pinnedTokens == Min(U64_MAX, TotalTokens(At(entries, WithPersistence(entries, true, i))))
    {
      PersistenceGrows(entries, i);
      if entries[i].persistence.Pinned? {
        PinnedGrows(entries, i);
        pinnedTokens := SaturatingAdd(pinnedTokens, entries[i].tokens);
        Append(selected, selectedLength, i);
        selectedLength := selectedLength + 1;
      } else {
        Append(ordering, candidateLength, i);
        candidateLength := candidateLength + 1;
      }
    }
  }

  lemma NonePersistent(entries: seq<Entry>)
    ensures WithPersistence(entries, true, 0) == [] && WithPersistence(entries, false, 0) == []
  {
  }

  lemma PersistenceGrows(entries: seq<Entry>, i: nat)
    requires i < |entries|
    ensures var pinned := entries[i].persistence.Pinned?;
            && WithPersistence(entries, pinned, i + 1) == WithPersistence(entries, pinned, i) + [i]
            && WithPersistence(entries, !pinned, i + 1) == WithPersistence(entries, !pinned, i)
  {
  }

  lemma PinnedGrows(entries: seq<Entry>, i: nat)
    requires i < |entries| && entries[i].persistence.Pinned?
    ensures TotalTokens(At(entries, WithPersistence(entries, true, i + 1)))
            == TotalTokens(At(entries, WithPersistence(entries, true, i))) + entries[i].tokens
  {
    var s := At(entries, WithPersistence(entries, true, i));
    assert At(entries, WithPersistence(entries, true, i + 1)) == s + [entries[i]];
    assert (s + [entries[i]])[..|s|] == s;
  }

  // The greedy pass: appends taken candidates to `selected`, the others to `dropped`.
  method TakeCandidates(entries: seq<Entry>, available: nat, used: nat, ordering: array<nat>, count: nat,
                        selected: array<nat>, start: nat, dropped: array<nat>)
    returns (admitted: nat, selectedLength: nat, droppedLength: nat)
    requires count <= ordering.Length && InRange(entries, ordering[..count])
    requires start + count <= selected.Length && count <= dropped.Length
    requires ordering != selected && ordering != dropped && selected != dropped
    requires used <= available <= U32_MAX
    modifies selected, dropped
    ensures var choice := GreedyIndices(entries, ordering[..count], used, available);
            && selectedLength == start + |choice.0| && droppedLength == |choice.1|
            && selectedLength <= selected.Length && droppedLength <= dropped.Length
            && selected[..selectedLength] == old(selected[..start]) + choice.0
            && dropped[..droppedLength] == choice.1
            && admitted == used + TotalTokens(At(entries, choice.0)) <= available
  {
    hide GreedyIndices, Taking;
    admitted, selectedLength, droppedLength := used, start, 0;
    ghost var order, pinned: seq<nat> := ordering[..count], selected[..start];
    ghost var taken: seq<nat>, left: seq<nat> := [], [];
    NoneTaken(entries, order, used, available);
    for i := 0 to count
      invariant Taking(entries, order, i, used, available, taken, left, admitted)
      invariant |taken| + |left| == i && selectedLength == start + |taken| && droppedLength == |left|
      invariant selected[..selectedLength] == pinned + taken
      invariant dropped[..droppedLength] == left
    {
      var index := ordering[i];
      assert index == order[i];
      TakingStep(entries, order, i, used, available, taken, left, admitted);
      if SaturatingAdd(admitted, entries[index].tokens) <= available {
        taken := taken + [index];
        Append(selected, selectedLength, index);
        selectedLength := selectedLength + 1;
        admitted := SaturatingAdd(admitted, entries[index].tokens);
      } else {
        left := left + [index];
        Append(dropped, droppedLength, index);
        droppedLength := droppedLength + 1;
      }
    }
    AllTaken(entries, order, used, available, taken, left, admitted);
  }

  // The pass over the first i candidates.
  ghost predicate Taking(entries: seq<Entry>, order: seq<nat>, i: nat, used: nat, available: nat, taken: seq<nat>, left: seq<nat>, admitted: nat) {
    && InRange(entries, order) && i <= |order| && InRange(entries, order[..i])
    && GreedyIndices(entries, order[..i], used, available) == (taken, left)
    && InRange(entries, taken)
    && admitted == used + TotalTokens(At(entries, taken)) <= available
  }

  lemma NoneTaken(entries: seq<Entry>, order: seq<nat>, used: nat, available: nat)
    requires InRange(entries, order) && used <= available
    ensures Taking(entries, order, 0, used, available, [], [], used)
  {
  }

  lemma TakingStep(entries: seq<Entry>, order: seq<nat>, i: nat, used: nat, available: nat, taken: seq<nat>, left: seq<nat>, admitted: nat)
    requires Taking(entries, order, i, used, available, taken, left, admitted) && i < |order| && available <= U32_MAX
    ensures order[i] < |entries|
    ensures var tokens := entries[order[i]].tokens;
            if SaturatingAdd(admitted, tokens) <= available
            then Taking(entries, order, i + 1, used, available, taken + [order[i]], left, SaturatingAdd(admitted, tokens))
            else Taking(entries, order, i + 1, used, available, taken, left + [order[i]], admitted)
  {
    hide TotalTokens, GreedyIndices;
    FrontInRange(entries, order[..i + 1], i);
    OneMoreToken(entries, taken, order[i]);
    GreedyGrows(entries, order, i, used, available);
  }

  lemma AllTaken(entries: seq<Entry>, order: seq<nat>, used: nat, available: nat, taken: seq<nat>, left: seq<nat>, admitted: nat)
    requires Taking(entries, order, |order|, used, available, taken, left, admitted)
    ensures InRange(entries, order) && GreedyIndices(entries, order, used, available) == (taken, left)
    ensures InRange(entries, taken) && admitted == used + TotalTokens(At(entries, taken)) <= available
  {
    assert order[..|order|] == order;
  }

  // write_index.
  method Append(a: array<nat>, position: nat, value: nat)
    requires position < a.Length
    modifies a
    ensures a[..position + 1] == old(a[..position]) + [value]
  {
    a[position] := value;
  }

  lemma GreedyGrows(entries: seq<Entry>, order: seq<nat>, i: nat, used: nat, available: nat)
    requires InRange(entries, order) && i < |order|
    ensures var before := GreedyIndices(entries, order[..i], used, available);
            GreedyIndices(entries, order[..i + 1], used, available)
            == if used + TotalTokens(At(entries, before.0)) + entries[order[i]].tokens <= available
               then (before.0 + [order[i]], before.1) else (before.0, before.1 + [order[i]])
  {
    hide TotalTokens;
    assert order[..i + 1][..i] == order[..i];
  }

  lemma NoTokens()
    ensures TotalTokens([]) == 0
  {
  }

  lemma OneMoreToken(entries: seq<Entry>, taken: seq<nat>, i: nat)
    requires InRange(entries, taken) && i < |entries|
    ensures TotalTokens(At(entries, taken + [i])) == TotalTokens(At(entries, taken)) + entries[i].tokens
  {
    assert At(entries, taken + [i]) == At(entries, taken) + [entries[i]];
    assert (At(entries, taken) + [entries[i]])[..|taken|] == At(entries, taken);
  }

  // plan: every error exactly when its cause holds, and otherwise the specified plan.
  method Plan(entries: seq<Entry>, budget: ContextBudget, ordering: array<nat>, selected: array<nat>, dropped: array<nat>)
    returns (r: Outcome<ContextPlan>)
    requires ordering != selected && ordering != dropped && selected != dropped
    modifies ordering, selected, dropped
    ensures var room := Min(Min(ordering.Length, selected.Length), dropped.Length);
            && (|entries| > room ==> r == Err(WorkspaceCapacity(|entries|, room)))
            && (|entries| <= room && !UniqueIds(entries) ==>
                  exists i, j :: 0 <= i < j < |entries| && entries[i].id == entries[j].id && r == Err(DuplicateEntryId(entries[i].id)))
            && (|entries| <= room && UniqueIds(entries) && TokensOf(entries, PinnedSet(entries)) > Room(budget) ==>
                  r == Err(PinnedBudgetExceeded(Min(U64_MAX, TokensOf(entries, PinnedSet(entries))), Room(budget))))
            && (|entries| <= room && UniqueIds(entries) && TokensOf(entries, PinnedSet(entries)) <= Room(budget) ==>
                  r.Ok? && r.value == PlanFor(entries, budget) && IsPlan(entries, budget, r.value))
    ensures r.Ok? ==>
      && |r.value.selected| <= selected.Length && selected[..|r.value.selected|] == r.value.selected
      && |r.value.dropped| <= dropped.Length && dropped[..|r.value.dropped|] == r.value.dropped
  {
    hide UniqueIds, GreedyIndices, Sorted, WithPersistence, PinnedTokens, TokensOf, PlanFor, IsPlan;
    PinnedTokensAre(entries);
    var room := Min(Min(ordering.Length, selected.Length), dropped.Length);
    if room < |entries| {
      return Err(WorkspaceCapacity(|entries|, room));
    }
    var _ :- ValidateUniqueIds(entries);
    var available := budget.Available();
    var pinnedTokens, selectedLength, candidateLength := SplitPinned(entries, ordering, selected);
    if pinnedTokens > available {
      return Err(PinnedBudgetExceeded(pinnedTokens, available));
    }
    var p := FillPlan(entries, budget, pinnedTokens, ordering, candidateLength, selected, selectedLength, dropped);
    PlanIsDescribed(entries, budget);
    return Ok(p);
  }

  // The rest of plan: candidates in their order, greedily, then both lists by ordinal.
  method FillPlan(entries: seq<Entry>, budget: ContextBudget, pinnedTokens: nat, ordering: array<nat>, count: nat,
                  selected: array<nat>, start: nat, dropped: array<nat>)
    returns (p: ContextPlan)
    requires ordering != selected && ordering != dropped && selected != dropped
    requires start + count == |entries| <= selected.Length && count <= ordering.Length && count <= dropped.Length
    requires selected[..start] == WithPersistence(entries, true, |entries|)
    requires ordering[..count] == WithPersistence(entries, false, |entries|)
    requires pinnedTokens == PinnedTokens(entries) <= budget.Available()
    modifies ordering, selected, dropped
    ensures p == PlanFor(entries, budget)
    ensures |p.selected| <= selected.Length && selected[..|p.selected|] == p.selected
    ensures |p.dropped| <= dropped.Length && dropped[..|p.dropped|] == p.dropped
  {
    hide GreedyIndices, Sorted, WithPersistence, PinnedTokens;
    SortIndices(ByCandidate, entries, ordering, count);
    var admitted, selectedLength, droppedLength :=
      TakeCandidates(entries, budget.Available(), pinnedTokens, ordering, count, selected, start, dropped);
    SortIndices(ByOrdinal, entries, selected, selectedLength);
    SortIndices(ByOrdinal, entries, dropped, droppedLength);
    return ContextPlan(selected[..selectedLength], dropped[..droppedLength], admitted, budget.reservedOutput, budget.maximumTokens);
  }
}
