// Round-robin selection (next_request in generation.rs): what any run of selections
// guarantees while requests come and go.
module Fairness {
  import opened Common

  // The id next_request picks: the least one after the cursor, else the least one.
  ghost predicate IsNext(ids: set<nat>, cursor: Option<nat>, pick: nat) {
    && pick in ids
    && if cursor.Some? && exists x :: x in ids && x > cursor.value
       then pick > cursor.value && forall x :: x in ids && x > cursor.value ==> pick <= x
       else forall x :: x in ids ==> pick <= x
  }

  function CursorAt(picks: seq<nat>, cursor: Option<nat>, k: nat): Option<nat>
    requires k <= |picks|
  {
    if k == 0 then cursor else Some(picks[k - 1])
  }

  // A run of selections: before step k the waiting ids are ids[k], and each selection
  // moves the cursor to what it picked.
  ghost predicate IsRun(ids: seq<set<nat>>, picks: seq<nat>, cursor: Option<nat>) {
    && |ids| == |picks|
    && forall k :: 0 <= k < |picks| ==> IsNext(ids[k], CursorAt(picks, cursor, k), picks[k])
  }

  // y is selected later than x in the round that starts just after r.
  predicate Ahead(r: nat, x: nat, y: nat) {
    if x > r then y > x || y < r else x < y < r
  }

  lemma NextIsAhead(ids: set<nat>, x: nat, y: nat, r: nat)
    requires IsNext(ids, Some(x), y) && r in ids && x != r && y != r
    ensures Ahead(r, x, y)
  {
  }

  // While r waits unselected, every selection moves ahead in r's round.
  lemma {:induction false} RoundAdvances(ids: seq<set<nat>>, picks: seq<nat>, cursor: Option<nat>, r: nat, a: nat, b: nat)
    requires IsRun(ids, picks, cursor)
    requires a < b < |picks|
    requires forall k :: a <= k <= b ==> r in ids[k] && picks[k] != r
    ensures Ahead(r, picks[a], picks[b])
    decreases b - a
  {
    hide IsNext;
    assert IsNext(ids[b], CursorAt(picks, cursor, b), picks[b]);
    NextIsAhead(ids[b], picks[b - 1], picks[b], r);
    if a < b - 1 {
      RoundAdvances(ids, picks, cursor, r, a, b - 1);
    }
  }

  // Between two selections of r no other request is selected twice, whatever was
  // inserted or removed in between.
  lemma AtMostOncePerRound(ids: seq<set<nat>>, picks: seq<nat>, cursor: Option<nat>, r: nat, i: nat, j: nat, a: nat, b: nat)
    requires IsRun(ids, picks, cursor)
    requires i < a < b < j < |picks|
    requires picks[i] == r && picks[j] == r
    requires forall k :: i < k < j ==> r in ids[k] && picks[k] != r
    ensures picks[a] != picks[b]
  {
    RoundAdvances(ids, picks, cursor, r, a, b);
  }

  lemma PickWaits(ids: seq<set<nat>>, picks: seq<nat>, cursor: Option<nat>, k: nat)
    requires IsRun(ids, picks, cursor) && k < |picks|
    ensures picks[k] in ids[k]
  {
  }

  // With at most n requests waiting at any time of a window, each one that waits
  // throughout is selected within n steps.
  lemma WaitIsBounded(ids: seq<set<nat>>, picks: seq<nat>, cursor: Option<nat>, all: set<nat>, r: nat, from: nat)
    requires IsRun(ids, picks, cursor)
    requires from + |all| <= |picks|
    requires forall k :: from <= k < from + |all| ==> r in ids[k] && ids[k] <= all
    requires 0 < |all|
    ensures exists k :: from <= k < from + |all| && picks[k] == r
  {
    var to := from + |all|;
    if forall k :: from <= k < to ==> picks[k] != r {
      forall a, b | from <= a < b < to
        ensures picks[a] != picks[b]
      {
        RoundAdvances(ids, picks, cursor, r, a, b);
      }
      forall k | from <= k < to
        ensures picks[k] in all - {r}
      {
        PickWaits(ids, picks, cursor, k);
      }
      var window := picks[from..to];
      assert forall a, b :: 0 <= a < b < |window| ==> window[a] == picks[from + a] && window[b] == picks[from + b];
      assert r in ids[from] && |all - {r}| == |all| - 1;
      DistinctFit(window, all - {r});
    }
  }

  lemma {:induction false} DistinctFit(s: seq<nat>, all: set<nat>)
    requires forall a, b :: 0 <= a < b < |s| ==> s[a] != s[b]
    requires forall k :: 0 <= k < |s| ==> s[k] in all
    ensures |s| <= |all|
    decreases |s|
  {
    if s != [] {
      var last := s[|s| - 1];
      DistinctFit(s[..|s| - 1], all - {last});
      assert |all - {last}| == |all| - 1;
    }
  }
}
