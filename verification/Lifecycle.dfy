// Loaded-model lifecycle and bounded drain window (lifecycle.rs).
module Lifecycle {
  import opened Common

  datatype CancellationReason = UserRequested | ModelUnload | DrainTimeout | OtherReason(code: nat)

  datatype DrainWindow = DrainWindow(startedAt: nat, timeout: nat) {
    predicate HasExpired(now: nat) {
      SaturatingSub(now, startedAt) >= timeout
    }
  }

  datatype UnloadPolicy = RejectIfBusy | CancelActive | Drain(timeout: nat)

  datatype FailurePhase = LoadingPhase | ActivePhase | UnloadingPhase

  datatype State =
    | Absent
    | Loading
    | Ready
    | Active(requests: nat)
    | Draining(requests: nat, window: DrainWindow)
    | Cancelling(requests: nat, reason: CancellationReason)
    | Unloading
    | Failed(phase: FailurePhase)
  {
    // Requests the lifecycle believes are still running.
    function ActiveCount(): nat {
      match this
      case Active(n) => n
      case Draining(n, _) => n
      case Cancelling(n, _) => n
      case _ => 0
    }

    // A counting state always counts at least one request.
    predicate WellFormed() {
      Active? || Draining? || Cancelling? ==> requests > 0
    }

    predicate Accepting() {
      Ready? || Active?
    }
  }

  datatype Action = NoAction | CancelActiveRequests(reason: CancellationReason) | ReleaseModel | UnloadComplete

  datatype LifecycleError = InvalidTransition | Busy(requests: nat) | CounterExhausted

  // One transition: the next state and what the caller is told.
  datatype Step = Step(next: State, result: Result<Action, LifecycleError>)

  datatype Operation =
    | BeginLoad
    | CompleteLoad
    | Fail(phase: FailurePhase)
    | ClearFailure
    | StartRequest
    | FinishRequest
    | RequestUnload(policy: UnloadPolicy, now: nat)
    | Poll(now: nat)
    | CompleteUnload

  function Rejected(s: State, e: LifecycleError): Step {
    Step(s, Err(e))
  }

  function AfterStart(s: State): (t: Step)
    requires s.WellFormed()
    ensures t.next.WellFormed()
  {
    match s
    case Ready => Step(Active(1), Ok(NoAction))
    case Active(n) => if n + 1 > U32_MAX then Rejected(s, CounterExhausted) else Step(Active(n + 1), Ok(NoAction))
    case _ => Rejected(s, InvalidTransition)
  }

  function AfterFinish(s: State): (t: Step)
    requires s.WellFormed()
    ensures t.next.WellFormed()
  {
    match s
    case Active(n) => Step(if n == 1 then Ready else Active(n - 1), Ok(NoAction))
    case Draining(n, window) =>
      if n == 1 then Step(Unloading, Ok(ReleaseModel)) else Step(Draining(n - 1, window), Ok(NoAction))
    case Cancelling(n, reason) =>
      if n == 1 then Step(Unloading, Ok(ReleaseModel)) else Step(Cancelling(n - 1, reason), Ok(NoAction))
    case _ => Rejected(s, InvalidTransition)
  }

  function AfterUnloadRequest(s: State, policy: UnloadPolicy, now: nat): (t: Step)
    requires s.WellFormed()
    ensures t.next.WellFormed()
  {
    match s
    case Absent => Step(s, Ok(UnloadComplete))
    case Ready => Step(Unloading, Ok(ReleaseModel))
    case Active(n) =>
      (match policy
       case RejectIfBusy => Rejected(s, Busy(n))
       case CancelActive => Step(Cancelling(n, ModelUnload), Ok(CancelActiveRequests(ModelUnload)))
       case Drain(timeout) => Step(Draining(n, DrainWindow(now, timeout)), Ok(NoAction)))
    case _ => Rejected(s, InvalidTransition)
  }

  function AfterPoll(s: State, now: nat): (t: Step)
    requires s.WellFormed()
    ensures t.next.WellFormed()
  {
    match s
    case Draining(n, window) =>
      if window.HasExpired(now) then Step(Cancelling(n, DrainTimeout), Ok(CancelActiveRequests(DrainTimeout)))
      else Step(s, Ok(NoAction))
    case Unloading => Rejected(s, InvalidTransition)
    case Failed(_) => Rejected(s, InvalidTransition)
    case _ => Step(s, Ok(NoAction))
  }

  function After(s: State, op: Operation): (t: Step)
    requires s.WellFormed()
    ensures t.next.WellFormed()
  {
    match op
    case BeginLoad => if s != Absent then Rejected(s, InvalidTransition) else Step(Loading, Ok(NoAction))
    case CompleteLoad => if s != Loading then Rejected(s, InvalidTransition) else Step(Ready, Ok(NoAction))
    case Fail(phase) => Step(Failed(phase), Ok(NoAction))
    case ClearFailure => if s.Failed? then Step(Absent, Ok(UnloadComplete)) else Rejected(s, InvalidTransition)
    case StartRequest => AfterStart(s)
    case FinishRequest => AfterFinish(s)
    case RequestUnload(policy, now) => AfterUnloadRequest(s, policy, now)
    case Poll(now) => AfterPoll(s, now)
    case CompleteUnload => if s != Unloading then Rejected(s, InvalidTransition) else Step(Absent, Ok(UnloadComplete))
  }

  // ----- What a whole run keeps -----

  // The states and answers of a run of operations, oldest first.
  ghost function Run(s: State, ops: seq<Operation>): (t: State)
    requires s.WellFormed()
    ensures t.WellFormed()
  {
    if ops == [] then s else After(Run(s, ops[..|ops| - 1]), ops[|ops| - 1]).next
  }

  lemma RunExtends(s: State, ops: seq<Operation>, op: Operation)
    requires s.WellFormed()
    ensures Run(s, ops + [op]) == After(Run(s, ops), op).next
  {
    var longer := ops + [op];
    assert longer[..|longer| - 1] == ops;
  }

  // How often operations like `kind` succeeded, or an action was handed out, in a run from s.
  ghost function Starts(s: State, ops: seq<Operation>): nat
    requires s.WellFormed()
  {
    if ops == [] then 0
    else
      var prefix, op := ops[..|ops| - 1], ops[|ops| - 1];
      Starts(s, prefix) + if op.StartRequest? && After(Run(s, prefix), op).result.Ok? then 1 else 0
  }

  ghost function Finishes(s: State, ops: seq<Operation>): nat
    requires s.WellFormed()
  {
    if ops == [] then 0
    else
      var prefix, op := ops[..|ops| - 1], ops[|ops| - 1];
      Finishes(s, prefix) + if op.FinishRequest? && After(Run(s, prefix), op).result.Ok? then 1 else 0
  }

  ghost function Releases(s: State, ops: seq<Operation>): nat
    requires s.WellFormed()
  {
    if ops == [] then 0
    else
      var prefix, op := ops[..|ops| - 1], ops[|ops| - 1];
      Releases(s, prefix) + if After(Run(s, prefix), op).result == Ok(ReleaseModel) then 1 else 0
  }

  ghost function Unloads(s: State, ops: seq<Operation>): nat
    requires s.WellFormed()
  {
    if ops == [] then 0
    else
      var prefix, op := ops[..|ops| - 1], ops[|ops| - 1];
      Unloads(s, prefix) + if op.CompleteUnload? && After(Run(s, prefix), op).result.Ok? then 1 else 0
  }

  // The owner never declares the lifecycle failed (the runtime never does).
  ghost predicate NeverFails(ops: seq<Operation>) {
    forall i :: 0 <= i < |ops| ==> !ops[i].Fail?
  }

  ghost function Bit(b: bool): nat {
    if b then 1 else 0
  }

  lemma StepKeepsCounts(s: State, op: Operation)
    requires s.WellFormed() && !s.Failed? && !op.Fail?
    ensures !After(s, op).next.Failed?
    ensures After(s, op).next.ActiveCount() + Bit(op.FinishRequest? && After(s, op).result.Ok?)
            == s.ActiveCount() + Bit(op.StartRequest? && After(s, op).result.Ok?)
    ensures Bit(s.Unloading?) + Bit(After(s, op).result == Ok(ReleaseModel))
            == Bit(After(s, op).next.Unloading?) + Bit(op.CompleteUnload? && After(s, op).result.Ok?)
  {
  }

  // Over every run from the initial state, the count is exactly the requests
  // started and not finished, and a release is handed out exactly once per
  // completed unload, plus once while the model is waiting to be unloaded.
  lemma {:induction false} RunKeepsCounts(ops: seq<Operation>)
    requires NeverFails(ops)
    ensures !Run(Absent, ops).Failed?
    ensures Run(Absent, ops).ActiveCount() + Finishes(Absent, ops) == Starts(Absent, ops)
    ensures Releases(Absent, ops) == Unloads(Absent, ops) + Bit(Run(Absent, ops).Unloading?)
  {
    if ops != [] {
      var prefix, op := ops[..|ops| - 1], ops[|ops| - 1];
      RunKeepsCounts(prefix);
      StepKeepsCounts(Run(Absent, prefix), op);
    }
  }

  // finish_request succeeds exactly while a request is counted, and it asks for
  // the model's release exactly when it ended the last request of a model that
  // no longer accepts work.
  lemma FinishIsExact(s: State)
    requires s.WellFormed()
    ensures After(s, FinishRequest).result.Ok? <==> s.ActiveCount() > 0
    ensures s.ActiveCount() > 0 ==> After(s, FinishRequest).next.ActiveCount() == s.ActiveCount() - 1
    ensures After(s, FinishRequest).result == Ok(ReleaseModel) <==> s.ActiveCount() == 1 && !s.Accepting()
    ensures s.ActiveCount() > 0 ==> (After(s, FinishRequest).next == Unloading <==> s.ActiveCount() == 1 && !s.Accepting())
  {
  }

  // Once an unload has been accepted no request can be started until the model
  // has gone through Absent and been loaded again.
  lemma {:induction false} NoStartAfterUnload(s: State, ops: seq<Operation>)
    requires s.Draining? || s.Cancelling? || s.Unloading?
    requires s.WellFormed()
    requires forall i :: 0 <= i < |ops| ==> !ops[i].Fail? && !ops[i].CompleteUnload?
    ensures Starts(s, ops) == 0
    ensures var t := Run(s, ops); (t.Draining? || t.Cancelling? || t.Unloading?) && t.ActiveCount() <= s.ActiveCount()
  {
    if ops != [] {
      NoStartAfterUnload(s, ops[..|ops| - 1]);
    }
  }

  // A drain is bounded: whatever happens while it lasts, its window never moves,
  // so a poll escalates it to cancellation if and only if the timeout has passed.
  lemma {:induction false} DrainIsBounded(s: State, ops: seq<Operation>, now: nat)
    requires s.WellFormed() && s.Draining?
    requires forall i :: 0 <= i < |ops| ==> !ops[i].Fail? && !ops[i].CompleteUnload?
    requires Run(s, ops).Draining?
    ensures Run(s, ops).window == s.window
    ensures After(Run(s, ops), Poll(now)).result == Ok(CancelActiveRequests(DrainTimeout))
            <==> SaturatingSub(now, s.window.startedAt) >= s.window.timeout
    ensures After(Run(s, ops), Poll(now)).next.Draining?
            <==> SaturatingSub(now, s.window.startedAt) < s.window.timeout
  {
    if ops != [] {
      var prefix := ops[..|ops| - 1];
      NoStartAfterUnload(s, prefix);
      DrainIsBounded(s, prefix, now);
    }
  }

  // ----- The lifecycle object -----

  // One field, overwritten in place by every operation. `ops` is the whole run of
  // operations so far, failed ones included.
  class ModelLifecycle {
    var state: State
    ghost var ops: seq<Operation>

    ghost predicate Valid()
      reads this
    {
      state == Run(Absent, ops)
    }

    constructor ()
      ensures Valid() && state == Absent && ops == []
    {
      state := Absent;
      ops := [];
    }

    // In every reachable state the count is exactly the requests started and not
    // finished, and no release has been handed out that was not called for.
    lemma CountsRequests()
      requires Valid() && NeverFails(ops)
      ensures !state.Failed?
      ensures state.ActiveCount() + Finishes(Absent, ops) == Starts(Absent, ops)
      ensures Releases(Absent, ops) == Unloads(Absent, ops) + Bit(state.Unloading?)
    {
      RunKeepsCounts(ops);
    }

    method BeginLoad() returns (r: Result<Action, LifecycleError>)
      requires Valid()
      modifies this
      ensures Valid() && ops == old(ops) + [Operation.BeginLoad]
      ensures Step(state, r) == After(old(state), Operation.BeginLoad)
      ensures r.Ok? <==> old(state) == Absent
    {
      RunExtends(Absent, ops, Operation.BeginLoad);
      ops := ops + [Operation.BeginLoad];
      if state != Absent {
        return Err(InvalidTransition);
      }
      state := Loading;
      return Ok(NoAction);
    }

    method CompleteLoad() returns (r: Result<Action, LifecycleError>)
      requires Valid()
      modifies this
      ensures Valid() && ops == old(ops) + [Operation.CompleteLoad]
      ensures Step(state, r) == After(old(state), Operation.CompleteLoad)
      ensures r.Ok? ==> state.Accepting() && state.ActiveCount() == 0
    {
      RunExtends(Absent, ops, Operation.CompleteLoad);
      ops := ops + [Operation.CompleteLoad];
      if state != Loading {
        return Err(InvalidTransition);
      }
      state := Ready;
      return Ok(NoAction);
    }

    method Fail(phase: FailurePhase) returns (action: Action)
      requires Valid()
      modifies this
      ensures Valid() && ops == old(ops) + [Operation.Fail(phase)]
      ensures Step(state, Ok(action)) == After(old(state), Operation.Fail(phase))
      ensures !state.Accepting() && state.ActiveCount() == 0
    {
      RunExtends(Absent, ops, Operation.Fail(phase));
      ops := ops + [Operation.Fail(phase)];
      state := Failed(phase);
      return NoAction;
    }

    method ClearFailure() returns (r: Result<Action, LifecycleError>)
      requires Valid()
      modifies this
      ensures Valid() && ops == old(ops) + [Operation.ClearFailure]
      ensures Step(state, r) == After(old(state), Operation.ClearFailure)
      ensures r.Ok? <==> old(state).Failed?
    {
      RunExtends(Absent, ops, Operation.ClearFailure);
      ops := ops + [Operation.ClearFailure];
      match state {
        case Failed(_) =>
          state := Absent;
          return Ok(UnloadComplete);
        case _ => return Err(InvalidTransition);
      }
    }

    // Starts exactly while the model accepts work and the counter can take one more.
    method StartRequest() returns (r: Result<Action, LifecycleError>)
      requires Valid()
      modifies this
      ensures Valid() && ops == old(ops) + [Operation.StartRequest]
      ensures Step(state, r) == After(old(state), Operation.StartRequest)
      ensures r.Ok? <==> old(state).Accepting() && old(state).ActiveCount() < U32_MAX
      ensures r.Ok? ==> state.Accepting() && state.ActiveCount() == old(state).ActiveCount() + 1
      ensures r.Err? ==> state == old(state) && (r.error == CounterExhausted <==> old(state).Accepting())
    {
      RunExtends(Absent, ops, Operation.StartRequest);
      ops := ops + [Operation.StartRequest];
      match state {
        case Ready =>
          state := Active(1);
          return Ok(NoAction);
        case Active(n) =>
          if n + 1 > U32_MAX {
            return Err(CounterExhausted);
          }
          state := Active(n + 1);
          return Ok(NoAction);
        case _ => return Err(InvalidTransition);
      }
    }

    // Ends exactly a counted request, and asks for the model's release exactly when
    // it was the last one of a model that no longer accepts work.
    method FinishRequest() returns (r: Result<Action, LifecycleError>)
      requires Valid()
      modifies this
      ensures Valid() && ops == old(ops) + [Operation.FinishRequest]
      ensures Step(state, r) == After(old(state), Operation.FinishRequest)
      ensures r.Ok? <==> old(state).ActiveCount() > 0
      ensures r.Ok? ==> state.ActiveCount() == old(state).ActiveCount() - 1 && (state.Accepting() <==> old(state).Accepting())
      ensures r == Ok(ReleaseModel) <==> state.Unloading? && !old(state).Unloading?
      ensures r.Err? ==> state == old(state)
    {
      RunExtends(Absent, ops, Operation.FinishRequest);
      ops := ops + [Operation.FinishRequest];
      match state {
        case Active(n) =>
          state := if n == 1 then Ready else Active(n - 1);
          return Ok(NoAction);
        case Draining(n, window) =>
          if n == 1 {
            state := Unloading;
            return Ok(ReleaseModel);
          }
          state := Draining(n - 1, window);
          return Ok(NoAction);
        case Cancelling(n, reason) =>
          if n == 1 {
            state := Unloading;
            return Ok(ReleaseModel);
          }
          state := Cancelling(n - 1, reason);
          return Ok(NoAction);
        case _ => return Err(InvalidTransition);
      }
    }

    // An accepted unload ends admission without losing a request; an error, or a
    // model that is already absent, changes nothing.
    method RequestUnload(policy: UnloadPolicy, now: nat) returns (r: Result<Action, LifecycleError>)
      requires Valid()
      modifies this
      ensures Valid() && ops == old(ops) + [Operation.RequestUnload(policy, now)]
      ensures Step(state, r) == After(old(state), Operation.RequestUnload(policy, now))
      ensures r.Ok? <==> old(state).Absent? || old(state).Ready? || (old(state).Active? && policy != RejectIfBusy)
      ensures r.Ok? ==> !state.Accepting() && state.ActiveCount() == old(state).ActiveCount()
      ensures r.Err? || old(state).Absent? ==> state == old(state)
      ensures r.Err? ==> (r.error == Busy(old(state).ActiveCount()) <==> old(state).Accepting())
    {
      RunExtends(Absent, ops, Operation.RequestUnload(policy, now));
      ops := ops + [Operation.RequestUnload(policy, now)];
      match state {
        case Absent => return Ok(UnloadComplete);
        case Ready =>
          state := Unloading;
          return Ok(ReleaseModel);
        case Active(n) =>
          match policy {
            case RejectIfBusy => return Err(Busy(n));
            case CancelActive =>
              state := Cancelling(n, ModelUnload);
              return Ok(CancelActiveRequests(ModelUnload));
            case Drain(timeout) =>
              state := Draining(n, DrainWindow(now, timeout));
              return Ok(NoAction);
          }
        case _ => return Err(InvalidTransition);
      }
    }

    // Moves the state exactly when a drain window has expired, and then only from
    // draining to cancelling the same requests.
    method Poll(now: nat) returns (r: Result<Action, LifecycleError>)
      requires Valid()
      modifies this
      ensures Valid() && ops == old(ops) + [Operation.Poll(now)]
      ensures Step(state, r) == After(old(state), Operation.Poll(now))
      ensures state != old(state) <==> old(state).Draining? && old(state).window.HasExpired(now)
      ensures state != old(state) ==>
                r == Ok(CancelActiveRequests(DrainTimeout)) && state == Cancelling(old(state).ActiveCount(), DrainTimeout)
    {
      RunExtends(Absent, ops, Operation.Poll(now));
      ops := ops + [Operation.Poll(now)];
      match state {
        case Draining(n, window) =>
          if window.HasExpired(now) {
            state := Cancelling(n, DrainTimeout);
            return Ok(CancelActiveRequests(DrainTimeout));
          }
          return Ok(NoAction);
        case Ready | Active(_) | Cancelling(_, _) | Loading | Absent => return Ok(NoAction);
        case Unloading | Failed(_) => return Err(InvalidTransition);
      }
    }

    method CompleteUnload() returns (r: Result<Action, LifecycleError>)
      requires Valid()
      modifies this
      ensures Valid() && ops == old(ops) + [Operation.CompleteUnload]
      ensures Step(state, r) == After(old(state), Operation.CompleteUnload)
      ensures r.Ok? <==> old(state) == Unloading
    {
      RunExtends(Absent, ops, Operation.CompleteUnload);
      ops := ops + [Operation.CompleteUnload];
      if state != Unloading {
        return Err(InvalidTransition);
      }
      state := Absent;
      return Ok(UnloadComplete);
    }
  }
}
