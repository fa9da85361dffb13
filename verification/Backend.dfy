// The backend contract of backend.rs and sequence.rs: checked prefill and decode
// around an arbitrary backend, and the loader and model calls the registry makes.
module Backends {
  import opened Common
  import opened Footprints
  import opened RuntimeTypes
  import opened BackendProtocol

  datatype SequenceState = Empty | SequenceReady | Finished | Transitioning

  datatype Call = PrefillCall(tokens: seq<Token>, emitLogits: bool) | DecodeCall(token: Token)

  // A backend-owned sequence. `calls` is every execution it has been given, so a
  // kernel that is a function of it can still behave differently on every call.
  datatype Sequence = Sequence(
    key: Key,
    id: SequenceId,
    tokenCapacity: nat,
    state: SequenceState,
    position: nat,
    calls: seq<Call>
  )

  // What one execution answers: Ready (tokens consumed, logits count and values) or a graceful end.
  datatype Answer =
    | Ready(consumed: nat, position: nat, logitsWritten: nat)
    | Ended(reason: FinishReason)

  // What one execution does to the sequence and to the caller's logits.
  datatype Execution = Execution(
    answer: Result<Answer, SequenceError>,
    state: SequenceState,
    position: nat,
    logits: seq<real>
  )

  // An arbitrary backend kernel, deterministic per sequence: it sees which
  // sequence it runs, everything that sequence was given before, and the call.
  datatype Kernel = Kernel(
    execute: (Key, seq<Call>, Call) -> Execution,
    requiredLogits: (Key, seq<Call>, Call) -> nat
  )

  // The backend writes its values over the front of the caller's fixed buffer.
  function Overwrite(buffer: seq<real>, values: seq<real>): (r: seq<real>)
    ensures |r| == |buffer|
  {
    if |values| <= |buffer| then values + buffer[|values|..] else values[..|buffer|]
  }

  // Result of a checked call: the sequence and buffer afterwards, the answer,
  // and whether the backend was entered at all.
  datatype Checked = Checked(sequence: Sequence, buffer: seq<real>, answer: Result<Answer, SequenceError>, entered: bool)

  function Refused(s: Sequence, buffer: seq<real>, answer: Result<Answer, SequenceError>): Checked {
    Checked(s, buffer, answer, false)
  }

  // Capacity exhaustion and cancellation are ordinary ends, not errors.
  function Graceful(answer: Result<Answer, SequenceError>): Result<Answer, SequenceError> {
    match answer
    case Err(SequenceCapacity(capacity)) => Ok(Ended(BufferExhausted(capacity)))
    case Err(SequenceCancelled(reason)) => Ok(Ended(Cancelled(reason)))
    case _ => answer
  }

  function Enter(kernel: Kernel, s: Sequence, call: Call, buffer: seq<real>): Checked {
    var required := kernel.requiredLogits(s.key, s.calls, call);
    if |buffer| < required then
      Refused(s, buffer, Ok(Ended(BufferExhausted(Capacity(Logits, required, |buffer|)))))
    else
      var done := kernel.execute(s.key, s.calls, call);
      Checked(
        s.(state := done.state, position := done.position, calls := s.calls + [call]),
        Overwrite(buffer, done.logits),
        Graceful(done.answer),
        true)
  }

  // prefill_checked, with the runtime's constant CancellationStatus::Running.
  function PrefillChecked(kernel: Kernel, s: Sequence, tokens: seq<Token>, emitLogits: bool, buffer: seq<real>): Checked {
    var available := SaturatingSub(s.tokenCapacity, s.position);
    if s.state == Finished then Refused(s, buffer, Err(InvalidState))
    else if |tokens| > available then
      Refused(s, buffer, Ok(Ended(BufferExhausted(Capacity(Tokens, |tokens|, available)))))
    else Enter(kernel, s, PrefillCall(tokens, emitLogits), buffer)
  }

  // decode_checked, with the runtime's constant CancellationStatus::Running.
  function DecodeChecked(kernel: Kernel, s: Sequence, token: Token, buffer: seq<real>): Checked {
    var available := SaturatingSub(s.tokenCapacity, s.position);
    if s.state != SequenceReady then Refused(s, buffer, Err(InvalidState))
    else if available == 0 then Refused(s, buffer, Ok(Ended(BufferExhausted(Capacity(Tokens, 1, 0)))))
    else Enter(kernel, s, DecodeCall(token), buffer)
  }

  // The checks promise the backend that it is entered only in a usable state with
  // room for every token it is given; a refused call changes nothing, the buffer
  // never changes size, and no capacity or cancellation error reaches the caller.
  lemma PrefillIsChecked(kernel: Kernel, s: Sequence, tokens: seq<Token>, emitLogits: bool, buffer: seq<real>)
    ensures var p := PrefillChecked(kernel, s, tokens, emitLogits, buffer);
            && (p.entered ==> s.state != Finished && (tokens == [] || s.position + |tokens| <= s.tokenCapacity))
            && (p.entered ==> |buffer| >= kernel.requiredLogits(s.key, s.calls, PrefillCall(tokens, emitLogits)))
            && (!p.entered ==> p.sequence == s && p.buffer == buffer)
            && |p.buffer| == |buffer|
            && (p.answer.Err? ==> p.answer.error == InvalidState || p.answer.error.BackendFailure?)
  {
  }

  lemma DecodeIsChecked(kernel: Kernel, s: Sequence, token: Token, buffer: seq<real>)
    ensures var d := DecodeChecked(kernel, s, token, buffer);
            && (d.entered ==> s.state == SequenceReady && s.position < s.tokenCapacity)
            && (d.entered ==> |buffer| >= kernel.requiredLogits(s.key, s.calls, DecodeCall(token)))
            && (!d.entered ==> d.sequence == s && d.buffer == buffer)
            && |d.buffer| == |buffer|
            && (d.answer.Err? ==> d.answer.error == InvalidState || d.answer.error.BackendFailure?)
  {
  }

  // ----- The loader and model calls -----

  datatype Model = Model(key: Key, handle: ModelHandle, metadata: Metadata)

  datatype LoadPlan = LoadPlan(descriptor: Descriptor, footprint: Footprint)

  datatype SequencePlan = SequencePlan(configuration: SequenceConfiguration, footprint: Footprint, logitsCapacity: nat)

  // What the loader or a model was asked, and its answer.
  datatype Reply =
    | LoadPlanned(handle: ModelHandle, loadPlan: Result<LoadPlan, nat>)
    | LoadAnswered(handle: ModelHandle, model: Result<Model, nat>)
    | SequencePlanned(on: Key, configuration: SequenceConfiguration, sequencePlan: Result<SequencePlan, nat>)
    | SequenceAnswered(on: Key, id: SequenceId, configuration: SequenceConfiguration, sequence: Result<Sequence, nat>)

  // Everything the loader, its models and their sequences were asked so far.
  datatype Transcript = Transcript(replies: seq<Reply>, log: seq<Event>)

  // One backend: its kernel is arbitrary but fixed, every other answer is chosen
  // afresh on each call, and every call is logged.
  class Backend {
    const kernel: Kernel
    ghost const maximumAttempts: nat
    var nextKey: Key
    ghost var log: seq<Event>
    ghost var world: World
    ghost var replies: seq<Reply>

    // The log so far respects the ownership contract.
    ghost predicate Valid()
      reads this
    {
      && Lawful(log, maximumAttempts)
      && world == Replay(log)
      && (forall k :: k in world.models ==> k < nextKey)
      && (forall k :: k in world.sequences ==> k < nextKey && world.sequences[k].model in world.models)
    }

    constructor (kernel: Kernel, ghost maximumAttempts: nat)
      ensures Valid()
      ensures log == [] && replies == [] && this.kernel == kernel && this.maximumAttempts == maximumAttempts
    {
      this.kernel := kernel;
      this.maximumAttempts := maximumAttempts;
      nextKey := 0;
      log, replies := [], [];
      world := World(map[], map[]);
    }

    ghost function Said(): Transcript
      reads this
    {
      Transcript(replies, log)
    }

    ghost method Record(e: Event)
      requires Valid() && Allowed(world, e, maximumAttempts)
      requires e.Loaded? ==> e.model < nextKey
      requires e.Created? ==> e.sequence < nextKey
      modifies `log, `world
      ensures Valid()
      ensures log == old(log) + [e]
      ensures world == Apply(old(world), e)
    {
      Extend(log, e, maximumAttempts);
      log := log + [e];
      world := Apply(world, e);
    }

    method PlanLoad(handle: ModelHandle) returns (r: Result<LoadPlan, nat>)
      modifies `replies
      ensures replies == old(replies) + [LoadPlanned(handle, r)]
    {
      r := *;
      replies := replies + [LoadPlanned(handle, r)];
    }

    method Load(handle: ModelHandle) returns (r: Result<Model, nat>)
      requires Valid()
      modifies this
      ensures Valid()
      ensures r.Ok? ==> r.value.key !in old(world).models && log == old(log) + [Loaded(r.value.key)]
      ensures r.Ok? ==> world == Apply(old(world), Loaded(r.value.key))
      ensures r.Err? ==> log == old(log) && world == old(world)
      ensures replies == old(replies) + [LoadAnswered(handle, r)]
    {
      r := *;
      if r.Ok? {
        r := Ok(r.value.(key := nextKey));
        nextKey := nextKey + 1;
        Record(Loaded(r.value.key));
      }
      replies := replies + [LoadAnswered(handle, r)];
    }

    method PlanSequence(model: Model, configuration: SequenceConfiguration) returns (r: Result<SequencePlan, nat>)
      modifies `replies
      ensures replies == old(replies) + [SequencePlanned(model.key, configuration, r)]
    {
      r := *;
      replies := replies + [SequencePlanned(model.key, configuration, r)];
    }

    method CreateSequence(model: Model, id: SequenceId, configuration: SequenceConfiguration) returns (r: Result<Sequence, nat>)
      requires Valid()
      requires model.key in world.models && world.models[model.key] == Resident
      modifies this
      ensures Valid()
      ensures r.Ok? ==> r.value.key !in old(world).sequences && r.value.calls == []
      ensures r.Ok? ==> log == old(log) + [Created(r.value.key, model.key)]
      ensures r.Ok? ==> world == Apply(old(world), Created(r.value.key, model.key))
      ensures r.Err? ==> log == old(log) && world == old(world)
      ensures replies == old(replies) + [SequenceAnswered(model.key, id, configuration, r)]
    {
      r := *;
      if r.Ok? {
        r := Ok(r.value.(key := nextKey, calls := []));
        nextKey := nextKey + 1;
        Record(Created(r.value.key, model.key));
      }
      replies := replies + [SequenceAnswered(model.key, id, configuration, r)];
    }

    method DestroySequence(s: Sequence) returns (ok: bool)
      requires Valid()
      requires Allowed(world, Destroy(s.key, true), maximumAttempts)
      modifies `log, `world
      ensures Valid()
      ensures log == old(log) + [Destroy(s.key, ok)]
      ensures world == Apply(old(world), Destroy(s.key, ok))
    {
      ok := *;
      Record(Destroy(s.key, ok));
    }

    method UnloadModel(model: Model) returns (ok: bool)
      requires Valid()
      requires Allowed(world, PrepareUnload(model.key, true), maximumAttempts)
      modifies `log, `world
      ensures Valid()
      ensures log == old(log) + [PrepareUnload(model.key, ok)]
      ensures world == Apply(old(world), PrepareUnload(model.key, ok))
    {
      ok := *;
      Record(PrepareUnload(model.key, ok));
    }

    method Prefill(s: Sequence, tokens: seq<Token>, emitLogits: bool, buffer: seq<real>) returns (r: Checked)
      requires Valid()
      requires Allowed(world, Executed(s.key), maximumAttempts)
      modifies `log, `world
      ensures Valid()
      ensures r == PrefillChecked(kernel, s, tokens, emitLogits, buffer)
      ensures log == if r.entered then old(log) + [Executed(s.key)] else old(log)
      ensures world == old(world)
    {
      r := PrefillChecked(kernel, s, tokens, emitLogits, buffer);
      if r.entered {
        Record(Executed(s.key));
      }
    }

    method Decode(s: Sequence, token: Token, buffer: seq<real>) returns (r: Checked)
      requires Valid()
      requires Allowed(world, Executed(s.key), maximumAttempts)
      modifies `log, `world
      ensures Valid()
      ensures r == DecodeChecked(kernel, s, token, buffer)
      ensures log == if r.entered then old(log) + [Executed(s.key)] else old(log)
      ensures world == old(world)
    {
      r := DecodeChecked(kernel, s, token, buffer);
      if r.entered {
        Record(Executed(s.key));
      }
    }
  }
}
