// The ownership contract of backend.rs as a monitor over the log of backend calls.
// A log is lawful when every call was allowed by the state the earlier calls
// left; the lemmas below say what that means in terms of the calls themselves.
module BackendProtocol {

  // Loaded models and created sequences are physical resources, identified by
  // keys that are never reused (unlike the caller's model and sequence ids).
  type Key = nat

  datatype Event =
    | Loaded(model: Key)
    | PrepareUnload(model: Key, ok: bool)
    | Created(sequence: Key, model: Key)
    | Executed(sequence: Key)
    | Destroy(sequence: Key, ok: bool)

  datatype ModelStatus = Resident | UnloadFailed(attempts: nat) | Unloaded

  datatype SequenceStatus = Live | DestroyFailed(attempts: nat) | Destroyed

  datatype SequenceRecord = SequenceRecord(model: Key, status: SequenceStatus)

  datatype World = World(models: map<Key, ModelStatus>, sequences: map<Key, SequenceRecord>)

  function SequenceAttempts(s: SequenceStatus): nat {
    if s.DestroyFailed? then s.attempts else 0
  }

  function ModelAttempts(s: ModelStatus): nat {
    if s.UnloadFailed? then s.attempts else 0
  }

  // The record of one sequence after a destruction attempt.
  function AfterDestroy(record: SequenceRecord, ok: bool): SequenceRecord {
    record.(status := if ok then Destroyed else DestroyFailed(SequenceAttempts(record.status) + 1))
  }

  ghost predicate AllDestroyed(w: World, model: Key) {
    forall k :: k in w.sequences && w.sequences[k].model == model ==> w.sequences[k].status == Destroyed
  }

  ghost predicate Allowed(w: World, e: Event, maximum: nat) {
    match e
    case Loaded(m) => m !in w.models
    case PrepareUnload(m, _) =>
      && m in w.models
      && w.models[m] != Unloaded
      && ModelAttempts(w.models[m]) < maximum
      && AllDestroyed(w, m)
    case Created(s, m) => s !in w.sequences && m in w.models && w.models[m] == Resident
    case Executed(s) => s in w.sequences && w.sequences[s].status == Live
    case Destroy(s, _) =>
      && s in w.sequences
      && w.sequences[s].status != Destroyed
      && SequenceAttempts(w.sequences[s].status) < maximum
  }

  // The state after one call; total, so that a log can be replayed on its own.
  ghost function Apply(w: World, e: Event): World {
    match e
    case Loaded(m) => w.(models := w.models[m := Resident])
    case PrepareUnload(m, ok) =>
      if m !in w.models then w
      else w.(models := w.models[m := if ok then Unloaded else UnloadFailed(ModelAttempts(w.models[m]) + 1)])
    case Created(s, m) => w.(sequences := w.sequences[s := SequenceRecord(m, Live)])
    case Executed(s) => w
    case Destroy(s, ok) =>
      if s !in w.sequences then w
      else
        w.(sequences := w.sequences[s := AfterDestroy(w.sequences[s], ok)])
  }

  // No release failed between two moments of the log.
  predicate Flawless(before: seq<Event>, after: seq<Event>) {
    before <= after && forall i :: |before| <= i < |after| ==> Effective(after[i])
  }

  predicate Effective(e: Event) {
    match e
    case Destroy(_, ok) => ok
    case PrepareUnload(_, ok) => ok
    case _ => true
  }

  lemma FlawlessSelf(log: seq<Event>)
    ensures Flawless(log, log)
  {
  }

  lemma FlawlessParts(a: seq<Event>, b: seq<Event>, c: seq<Event>)
    requires a <= b <= c
    ensures a <= c
    ensures Flawless(a, c) <==> Flawless(a, b) && Flawless(b, c)
  {
    hide Effective;
  }

  lemma ApplyDestroy(w: World, k: Key, ok: bool)
    requires k in w.sequences
    ensures Apply(w, Destroy(k, ok)) == World(w.models, w.sequences[k := AfterDestroy(w.sequences[k], ok)])
  {
  }

  lemma ApplyUnload(w: World, k: Key, ok: bool)
    requires k in w.models
    ensures Apply(w, PrepareUnload(k, ok))
            == World(w.models[k := if ok then Unloaded else UnloadFailed(ModelAttempts(w.models[k]) + 1)], w.sequences)
  {
  }

  ghost function Replay(log: seq<Event>): World {
    if log == [] then World(map[], map[]) else Apply(Replay(log[..|log| - 1]), log[|log| - 1])
  }

  ghost predicate Lawful(log: seq<Event>, maximum: nat) {
    log != [] ==>
      && Lawful(log[..|log| - 1], maximum)
      && Allowed(Replay(log[..|log| - 1]), log[|log| - 1], maximum)
  }

  lemma Extend(log: seq<Event>, e: Event, maximum: nat)
    requires Lawful(log, maximum)
    requires Allowed(Replay(log), e, maximum)
    ensures Lawful(log + [e], maximum)
    ensures Replay(log + [e]) == Apply(Replay(log), e)
  {
    assert (log + [e])[..|log|] == log;
  }

  // Every call of a lawful log was allowed when it was made.
  lemma {:induction false} AllowedAt(log: seq<Event>, maximum: nat, i: nat)
    requires Lawful(log, maximum)
    requires i < |log|
    ensures Lawful(log[..i], maximum)
    ensures Allowed(Replay(log[..i]), log[i], maximum)
    ensures Replay(log[..i + 1]) == Apply(Replay(log[..i]), log[i])
    decreases |log|
  {
    assert log[..i + 1][..i] == log[..i];
    if i < |log| - 1 {
      AllowedAt(log[..|log| - 1], maximum, i);
      assert log[..|log| - 1][..i] == log[..i];
      assert log[..|log| - 1][..i + 1] == log[..i + 1];
    } else {
      assert log[..i + 1] == log;
    }
  }

  // Statuses only move forward: a destroyed sequence stays destroyed, one whose
  // destruction failed never becomes usable again, and its owner never changes.
  lemma {:induction false} SequenceMonotone(log: seq<Event>, maximum: nat, i: nat, j: nat, s: Key)
    requires Lawful(log, maximum)
    requires i <= j <= |log|
    requires s in Replay(log[..i]).sequences
    ensures s in Replay(log[..j]).sequences
    ensures Replay(log[..j]).sequences[s].model == Replay(log[..i]).sequences[s].model
    ensures Replay(log[..i]).sequences[s].status == Destroyed ==> Replay(log[..j]).sequences[s].status == Destroyed
    ensures Replay(log[..i]).sequences[s].status != Live ==> Replay(log[..j]).sequences[s].status != Live
    decreases j - i
  {
    if i < j {
      AllowedAt(log, maximum, j - 1);
      SequenceMonotone(log, maximum, i, j - 1, s);
    }
  }

  lemma {:induction false} ModelMonotone(log: seq<Event>, maximum: nat, i: nat, j: nat, m: Key)
    requires Lawful(log, maximum)
    requires i <= j <= |log|
    requires m in Replay(log[..i]).models
    ensures m in Replay(log[..j]).models
    ensures Replay(log[..i]).models[m] == Unloaded ==> Replay(log[..j]).models[m] == Unloaded
    ensures Replay(log[..i]).models[m] != Resident ==> Replay(log[..j]).models[m] != Resident
    decreases j - i
  {
    if i < j {
      AllowedAt(log, maximum, j - 1);
      ModelMonotone(log, maximum, i, j - 1, m);
    }
  }

  // ----- The contract, read off the calls -----

  // After a successful destruction no call ever names the sequence again.
  lemma NothingAfterDestroy(log: seq<Event>, maximum: nat, i: nat, j: nat, s: Key, ok: bool, m: Key)
    requires Lawful(log, maximum)
    requires i < j < |log|
    requires log[i] == Destroy(s, true)
    ensures log[j] != Destroy(s, ok) && log[j] != Executed(s) && log[j] != Created(s, m)
  {
    AllowedAt(log, maximum, i);
    SequenceMonotone(log, maximum, i + 1, j, s);
    AllowedAt(log, maximum, j);
  }

  // A sequence is executed only between its creation and its first destruction attempt.
  lemma ExecutedOnlyWhileOwned(log: seq<Event>, maximum: nat, j: nat, s: Key)
    requires Lawful(log, maximum)
    requires j < |log| && log[j] == Executed(s)
    ensures exists i, m :: 0 <= i < j && log[i] == Created(s, m)
    ensures forall i, ok :: 0 <= i < j ==> log[i] != Destroy(s, ok)
  {
    AllowedAt(log, maximum, j);
    forall i, ok | 0 <= i < j
      ensures log[i] != Destroy(s, ok)
    {
      AllowedAt(log, maximum, i);
      if log[i] == Destroy(s, ok) {
        SequenceMonotone(log, maximum, i + 1, j, s);
      }
    }
    var i := CreationOf(log[..j], s);
    assert log[i] == log[..j][i];
    assert log[i] == Created(s, log[i].model);
  }

  lemma {:induction false} CreationOf(log: seq<Event>, s: Key) returns (i: nat)
    requires s in Replay(log).sequences
    ensures i < |log| && log[i].Created? && log[i].sequence == s
  {
    var n := |log| - 1;
    if log[n].Created? && log[n].sequence == s {
      i := n;
    } else {
      i := CreationOf(log[..n], s);
    }
  }

  lemma {:induction false} DestructionOf(log: seq<Event>, s: Key, from: nat) returns (i: nat)
    requires from <= |log|
    requires s in Replay(log[..from]).sequences && Replay(log[..from]).sequences[s].status != Destroyed
    requires s in Replay(log).sequences && Replay(log).sequences[s].status == Destroyed
    ensures from <= i < |log| && log[i] == Destroy(s, true)
  {
    var n := |log| - 1;
    assert log[..|log|] == log;
    if log[n] == Destroy(s, true) && from <= n {
      i := n;
    } else {
      assert log[..n][..from] == log[..from];
      i := DestructionOf(log[..n], s, from);
    }
  }

  // prepare_unload is called only when every sequence the model ever created has
  // been destroyed successfully, and no sequence is created on it afterwards.
  lemma UnloadOnlyWhenEmpty(log: seq<Event>, maximum: nat, c: nat, u: nat, s: Key, m: Key, ok: bool)
    requires Lawful(log, maximum)
    requires c < |log| && log[c] == Created(s, m)
    requires u < |log| && log[u] == PrepareUnload(m, ok)
    ensures exists d :: c < d < u && log[d] == Destroy(s, true)
  {
    AllowedAt(log, maximum, c);
    AllowedAt(log, maximum, u);
    if u < c {
      ModelMonotone(log, maximum, u + 1, c, m);
      assert false;
    }
    assert c != u;
    assert Replay(log[..c + 1]).sequences[s] == SequenceRecord(m, Live);
    SequenceMonotone(log, maximum, c + 1, u, s);
    assert log[..u][..c + 1] == log[..c + 1];
    var d := DestructionOf(log[..u], s, c + 1);
    assert log[d] == log[..u][d];
  }

  // A successful unload is the last call that ever names the model.
  lemma NothingAfterUnload(log: seq<Event>, maximum: nat, i: nat, j: nat, m: Key, ok: bool, s: Key)
    requires Lawful(log, maximum)
    requires i < j < |log|
    requires log[i] == PrepareUnload(m, true)
    ensures log[j] != PrepareUnload(m, ok) && log[j] != Created(s, m) && log[j] != Loaded(m)
  {
    AllowedAt(log, maximum, i);
    ModelMonotone(log, maximum, i + 1, j, m);
    AllowedAt(log, maximum, j);
  }

  ghost function DestroyCalls(log: seq<Event>, s: Key): nat {
    if log == [] then 0
    else
      var last := log[|log| - 1];
      DestroyCalls(log[..|log| - 1], s) + if last.Destroy? && last.sequence == s then 1 else 0
  }

  ghost function UnloadCalls(log: seq<Event>, m: Key): nat {
    if log == [] then 0
    else
      var last := log[|log| - 1];
      UnloadCalls(log[..|log| - 1], m) + if last.PrepareUnload? && last.model == m then 1 else 0
  }

  // No resource is ever attempted more than `maximum` times, the first failure included.
  lemma {:induction false} DestroyIsBounded(log: seq<Event>, maximum: nat, s: Key)
    requires Lawful(log, maximum)
    ensures DestroyCalls(log, s) <= maximum
    ensures s !in Replay(log).sequences ==> DestroyCalls(log, s) == 0
    ensures s in Replay(log).sequences && Replay(log).sequences[s].status != Destroyed
            ==> DestroyCalls(log, s) == SequenceAttempts(Replay(log).sequences[s].status)
  {
    if log != [] {
      DestroyIsBounded(log[..|log| - 1], maximum, s);
    }
  }

  lemma {:induction false} UnloadIsBounded(log: seq<Event>, maximum: nat, m: Key)
    requires Lawful(log, maximum)
    ensures UnloadCalls(log, m) <= maximum
    ensures m !in Replay(log).models ==> UnloadCalls(log, m) == 0
    ensures m in Replay(log).models && Replay(log).models[m] != Unloaded
            ==> UnloadCalls(log, m) == ModelAttempts(Replay(log).models[m])
  {
    if log != [] {
      UnloadIsBounded(log[..|log| - 1], maximum, m);
    }
  }
}
