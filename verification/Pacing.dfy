// The scheduler's own run of selections (advance and next_request in generation.rs):
// what it keeps, and how long a scheduled task can take.
module Pacing {
  import opened Common
  import opened RuntimeTypes
  import opened Fairness
  import opened Generation

  // One scheduling opportunity: who waited, who was selected, and what came of it.
  // `ended` says that the selected task had already reached its terminal phase.
  datatype Turn = Turn(waiting: set<RequestId>, pick: RequestId, progressed: bool, refused: bool, ended: bool)

  function Waits(h: seq<Turn>): seq<set<RequestId>> {
    seq(|h|, k requires 0 <= k < |h| => h[k].waiting)
  }

  function Picks(h: seq<Turn>): seq<RequestId> {
    seq(|h|, k requires 0 <= k < |h| => h[k].pick)
  }

  // How often r was selected, how often without progress, and how often because the
  // output refused its push.
  function Turns(h: seq<Turn>, r: RequestId): nat {
    if h == [] then 0 else Turns(h[..|h| - 1], r) + if h[|h| - 1].pick == r then 1 else 0
  }

  function Stalls(h: seq<Turn>, r: RequestId): nat {
    if h == [] then 0 else Stalls(h[..|h| - 1], r) + if h[|h| - 1].pick == r && !h[|h| - 1].progressed then 1 else 0
  }

  function Refusals(h: seq<Turn>, r: RequestId): nat {
    if h == [] then 0 else Refusals(h[..|h| - 1], r) + if h[|h| - 1].pick == r && h[|h| - 1].refused then 1 else 0
  }

  // The history is a round-robin run that ends at the cursor, and a turn without progress
  // was refused by the output or waited for quarantined cleanup.
  ghost predicate Orderly(h: seq<Turn>, cursor: Option<RequestId>) {
    && IsRun(Waits(h), Picks(h), None)
    && cursor == CursorAt(Picks(h), None, |h|)
    && forall k :: 0 <= k < |h| && !h[k].progressed ==> h[k].refused || h[k].ended
  }

  // Task r waited at every turn since it was admitted, and has used up its remaining work
  // turn by turn.
  ghost predicate OnPace(h: seq<Turn>, since: nat, r: RequestId, task: Task) {
    && since <= |h|
    && (forall k :: since <= k < |h| ==> r in h[k].waiting)
    && (forall k :: since <= k < |h| && h[k].pick == r && h[k].ended ==> task.phase.TerminalPhase?)
    && Remaining(task) + Turns(h[since..], r) <= 5 + 2 * task.job.maximumGenerated + Stalls(h[since..], r)
  }

  ghost predicate Paced(h: seq<Turn>, cursor: Option<RequestId>, tasks: map<RequestId, Task>, since: map<RequestId, nat>) {
    && Orderly(h, cursor)
    && since.Keys == tasks.Keys
    && forall r :: r in tasks ==> OnPace(h, since[r], r, tasks[r])
  }

  // ----- Every step keeps the pace -----

  lemma NothingPaced()
    ensures Paced([], None, map[], map[])
  {
  }

  lemma AdmittedPaced(h: seq<Turn>, cursor: Option<RequestId>, tasks: map<RequestId, Task>, since: map<RequestId, nat>, r: RequestId, task: Task)
    requires Paced(h, cursor, tasks, since)
    requires Remaining(task) <= 5 + 2 * task.job.maximumGenerated
    ensures Paced(h, cursor, tasks[r := task], since[r := |h|])
  {
    hide Orderly, Remaining;
    assert h[|h|..] == [];
  }

  lemma MarkedPaced(h: seq<Turn>, cursor: Option<RequestId>, tasks: map<RequestId, Task>, since: map<RequestId, nat>, r: RequestId, task: Task)
    requires Paced(h, cursor, tasks, since) && r in tasks
    requires task == tasks[r].(cancellation := task.cancellation)
    ensures Paced(h, cursor, tasks[r := task], since)
  {
    hide Orderly;
    assert tasks[r := task].Keys == tasks.Keys;
  }

  // What one turn must do to keep the pace of the task it selects.
  ghost predicate TurnTaken(tasks: map<RequestId, Task>, cursor: Option<RequestId>, turn: Turn, task: Task, completed: bool) {
    && turn.waiting == tasks.Keys && IsNext(tasks.Keys, cursor, turn.pick) && turn.pick in tasks
    && turn.ended == tasks[turn.pick].phase.TerminalPhase?
    && task.job == tasks[turn.pick].job
    && (turn.ended ==> task.phase.TerminalPhase?)
    && (!completed && turn.progressed ==> Remaining(task) < Remaining(tasks[turn.pick]))
    && (!turn.progressed ==> !completed && Remaining(task) == Remaining(tasks[turn.pick]) && (turn.refused || turn.ended))
  }

  lemma TurnPaced(h: seq<Turn>, cursor: Option<RequestId>, tasks: map<RequestId, Task>, since: map<RequestId, nat>,
                  turn: Turn, task: Task, completed: bool)
    requires Paced(h, cursor, tasks, since) && TurnTaken(tasks, cursor, turn, task, completed)
    ensures var r := turn.pick;
            Paced(h + [turn], Some(r), if completed then tasks - {r} else tasks[r := task], if completed then since - {r} else since)
  {
    hide Orderly, OnPace, IsNext, Remaining;
    var r := turn.pick;
    var tasks' := if completed then tasks - {r} else tasks[r := task];
    OrderlyExtends(h, cursor, turn);
    assert tasks[r := task].Keys == tasks.Keys;
    forall x | x in tasks'
      ensures OnPace(h + [turn], since[x], x, tasks'[x])
    {
      if x == r {
        SelectedOnPace(h, since[r], tasks[r], turn, task);
      } else {
        PassedOnPace(h, since[x], x, tasks[x], turn);
      }
    }
  }

  lemma OrderlyExtends(h: seq<Turn>, cursor: Option<RequestId>, turn: Turn)
    requires Orderly(h, cursor) && IsNext(turn.waiting, cursor, turn.pick)
    requires !turn.progressed ==> turn.refused || turn.ended
    ensures Orderly(h + [turn], Some(turn.pick))
  {
    hide IsNext;
    var longer := h + [turn];
    forall k | 0 <= k < |longer|
      ensures IsNext(Waits(longer)[k], CursorAt(Picks(longer), None, k), Picks(longer)[k])
    {
      if k < |h| {
        assert IsNext(Waits(h)[k], CursorAt(Picks(h), None, k), Picks(h)[k]);
      }
    }
  }

  lemma SelectedOnPace(h: seq<Turn>, since: nat, before: Task, turn: Turn, task: Task)
    requires OnPace(h, since, turn.pick, before)
    requires turn.pick in turn.waiting && task.job == before.job
    requires turn.ended == before.phase.TerminalPhase? && (turn.ended ==> task.phase.TerminalPhase?)
    requires if turn.progressed then Remaining(task) < Remaining(before) else Remaining(task) == Remaining(before)
    ensures OnPace(h + [turn], since, turn.pick, task)
  {
    hide Remaining;
    CountsExtend(h, since, turn);
  }

  lemma PassedOnPace(h: seq<Turn>, since: nat, r: RequestId, task: Task, turn: Turn)
    requires OnPace(h, since, r, task) && r in turn.waiting && turn.pick != r
    ensures OnPace(h + [turn], since, r, task)
  {
    hide Remaining;
    CountsExtend(h, since, turn);
  }

  lemma CountsExtend(h: seq<Turn>, since: nat, turn: Turn)
    requires since <= |h|
    ensures (h + [turn])[since..] == h[since..] + [turn]
    ensures (h[since..] + [turn])[..|h[since..]|] == h[since..]
  {
  }

  // ----- What the pace means -----

  lemma {:induction false} CountsSplit(a: seq<Turn>, b: seq<Turn>, r: RequestId)
    ensures Turns(a + b, r) == Turns(a, r) + Turns(b, r)
    decreases |b|
  {
    if b == [] {
      assert a + b == a;
    } else {
      CountsSplit(a, b[..|b| - 1], r);
      assert (a + b)[..|a + b| - 1] == a + b[..|b| - 1];
    }
  }

  lemma {:induction false} SelectedCounts(h: seq<Turn>, r: RequestId, k: nat)
    requires k < |h| && h[k].pick == r
    ensures Turns(h, r) >= 1
    decreases |h|
  {
    if k < |h| - 1 {
      SelectedCounts(h[..|h| - 1], r, k);
    }
  }

  // Whoever waits throughout is selected at least once in every n turns, if no more than
  // n requests ever wait.
  lemma {:induction false} TurnsGrow(h: seq<Turn>, cursor: Option<RequestId>, all: set<RequestId>, r: RequestId, from: nat, windows: nat)
    requires Orderly(h, cursor) && 0 < |all|
    requires from + windows * |all| <= |h|
    requires forall k :: from <= k < |h| ==> r in h[k].waiting && h[k].waiting <= all
    ensures Turns(h[from..], r) >= windows
    decreases windows
  {
    hide Orderly, Turns;
    if windows > 0 {
      var next := from + |all|;
      OneWindowLess(windows, |all|);
      TurnsGrow(h, cursor, all, r, next, windows - 1);
      SelectedInWindow(h, cursor, all, r, from);
      CountsSplit(h[from..next], h[next..], r);
      assert h[from..next] + h[next..] == h[from..];
    }
  }

  lemma OneWindowLess(windows: nat, n: nat)
    requires windows > 0
    ensures windows * n == (windows - 1) * n + n >= n
  {
  }

  lemma SelectedInWindow(h: seq<Turn>, cursor: Option<RequestId>, all: set<RequestId>, r: RequestId, from: nat)
    requires Orderly(h, cursor) && 0 < |all|
    requires from + |all| <= |h|
    requires forall k :: from <= k < from + |all| ==> r in h[k].waiting && h[k].waiting <= all
    ensures Turns(h[from..from + |all|], r) >= 1
  {
    hide Fairness.IsRun, Turns;
    WaitIsBounded(Waits(h), Picks(h), None, all, r, from);
    var k :| from <= k < from + |all| && Picks(h)[k] == r;
    assert h[from..from + |all|][k - from].pick == r;
    SelectedCounts(h[from..from + |all|], r, k - from);
  }

  lemma {:induction false} StallsWereRefused(h: seq<Turn>, r: RequestId)
    requires forall k :: 0 <= k < |h| && h[k].pick == r && !h[k].progressed ==> h[k].refused
    ensures Stalls(h, r) <= Refusals(h, r)
    decreases |h|
  {
    if h != [] {
      StallsWereRefused(h[..|h| - 1], r);
    }
  }

  lemma OnlyRefused(h: seq<Turn>, cursor: Option<RequestId>, since: nat, r: RequestId, task: Task)
    requires Orderly(h, cursor) && OnPace(h, since, r, task) && !task.phase.TerminalPhase?
    ensures Stalls(h[since..], r) <= Refusals(h[since..], r)
  {
    hide Fairness.IsRun;
    StallsWereRefused(h[since..], r);
  }

  // Between two turns of a request that waits throughout, no other request is selected twice.
  lemma RoundIsFair(h: seq<Turn>, cursor: Option<RequestId>, r: RequestId, i: nat, j: nat, a: nat, b: nat)
    requires Orderly(h, cursor)
    requires i < a < b < j < |h| && h[i].pick == r && h[j].pick == r
    requires forall k :: i < k < j ==> r in h[k].waiting && h[k].pick != r
    ensures h[a].pick != h[b].pick
  {
    hide Fairness.IsRun;
    AtMostOncePerRound(Waits(h), Picks(h), None, r, i, j, a, b);
  }

  // A task that has not ended yet was admitted fewer than n * (2 * maximum + 1 + refusals)
  // turns ago, if no request outside a set of n has waited since: it samples and
  // publishes at most `maximum` tokens, and only a refused push costs it a turn.
  lemma EndsInTime(h: seq<Turn>, cursor: Option<RequestId>, tasks: map<RequestId, Task>, since: map<RequestId, nat>, r: RequestId, all: set<RequestId>)
    requires Paced(h, cursor, tasks, since) && r in tasks && !tasks[r].phase.TerminalPhase?
    requires r in all && forall k :: since[r] <= k < |h| ==> h[k].waiting <= all
    ensures |h| - since[r] < |all| * (2 * tasks[r].job.maximumGenerated + 1 + Refusals(h[since[r]..], r))
  {
    hide Orderly, Turns, Stalls, Refusals;
    var windows := 2 * tasks[r].job.maximumGenerated + 1 + Refusals(h[since[r]..], r);
    assert OnPace(h, since[r], r, tasks[r]);
    OnlyRefused(h, cursor, since[r], r, tasks[r]);
    if |h| - since[r] >= |all| * windows {
      assert windows * |all| == |all| * windows;
      TurnsGrow(h, cursor, all, r, since[r], windows);
    }
  }

  // A task that is still scheduled was admitted fewer than n * (2 * maximum + 5 + stalls)
  // turns ago, where a stall is a refused push or a turn spent waiting for cleanup.
  lemma LeavesInTime(h: seq<Turn>, cursor: Option<RequestId>, tasks: map<RequestId, Task>, since: map<RequestId, nat>, r: RequestId, all: set<RequestId>)
    requires Paced(h, cursor, tasks, since) && r in tasks
    requires r in all && forall k :: since[r] <= k < |h| ==> h[k].waiting <= all
    ensures |h| - since[r] < |all| * (2 * tasks[r].job.maximumGenerated + 5 + Stalls(h[since[r]..], r))
  {
    hide Orderly, Turns, Stalls;
    var windows := 2 * tasks[r].job.maximumGenerated + 5 + Stalls(h[since[r]..], r);
    assert OnPace(h, since[r], r, tasks[r]);
    if |h| - since[r] >= |all| * windows {
      assert windows * |all| == |all| * windows;
      TurnsGrow(h, cursor, all, r, since[r], windows);
    }
  }
}
