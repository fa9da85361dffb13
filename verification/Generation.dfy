// One scheduled generation (generation.rs): its task record, the simple loop it must
// agree with, and the order its states are published in.
module Generation {
  import opened Common
  import opened Footprints
  import opened Lifecycle
  import opened RuntimeTypes
  import opened Backends
  import opened TokenOutput

  datatype StopSequence = StopSequence(code: nat, tokens: seq<Token>)

  // The sampler's policy and generator state together with its two scratch vectors.
  datatype Sampler = Sampler(configuration: nat, generator: nat, epoch: nat, indices: seq<u32>, epochs: seq<u32>)

  datatype Sampled = Sampled(sampler: Sampler, logits: seq<real>, token: Result<Token, nat>)

  // Sampling as an arbitrary deterministic function of all it can see.
  datatype Sampling = Sampling(
    create: (nat, nat, nat) -> Result<Sampler, nat>,
    sample: (Sampler, seq<real>, seq<Token>) -> Sampled
  )

  datatype Machine = Machine(kernel: Kernel, sampling: Sampling)

  datatype GenerationOutcome = Graceful(reason: FinishReason) | Failure(error: RuntimeError)

  datatype OutputState =
    | Yielded(capacity: Capacity)
    | Terminal(outcome: GenerationOutcome)
    | CleanupPending(outcome: GenerationOutcome, failure: CleanupReport, retry: RetryState)
    | CleanupExhausted(outcome: GenerationOutcome, failure: CleanupReport, retry: RetryState)
    | Finalized(outcome: GenerationOutcome)

  type Log = seq<Push<OutputState>>

  datatype Job = Job(prompt: seq<Token>, maximumGenerated: nat, eosTokens: seq<Token>, stops: seq<StopSequence>)

  datatype TerminalPublication = TerminalPublication(
    outcome: GenerationOutcome,
    initialCleanup: Option<RetryState>,
    terminalPublished: bool,
    cleanupPublished: bool,
    exhaustionPublished: bool
  )

  datatype Phase = PrefillPhase | DecodePhase | TerminalPhase(terminal: TerminalPublication)

  datatype Task = Task(
    handle: ModelHandle,
    workspace: Footprint,
    job: Job,
    quantum: nat,
    sampler: Sampler,
    logits: seq<real>,
    history: seq<Token>,
    generated: seq<Token>,
    phase: Phase,
    pendingToken: Option<Token>,
    cancellation: Option<CancellationReason>,
    pendingYield: Option<Capacity>
  )

  // ----- The simple loop -----

  // Everything one generation's future depends on.
  datatype Run = Run(sequence: Sequence, logits: seq<real>, sampler: Sampler, generated: seq<Token>)

  datatype StepResult = Stopped(outcome: GenerationOutcome) | Continued(run: Run)

  datatype Generated = Generated(tokens: seq<Token>, outcome: GenerationOutcome)

  predicate EndsWith(tokens: seq<Token>, suffix: seq<Token>) {
    |suffix| <= |tokens| && tokens[|tokens| - |suffix|..] == suffix
  }

  // finish_after_token, asked right after the last token of `generated` was published.
  function FinishAfter(job: Job, generated: seq<Token>): Option<FinishReason>
    requires generated != []
  {
    var token := generated[|generated| - 1];
    if token in job.eosTokens then Some(EndOfSequence(token))
    else if exists i :: 0 <= i < |job.stops| && EndsWith(generated, job.stops[i].tokens) then Some(StopCondition)
    else if |generated| >= job.maximumGenerated then Some(TokenLimit)
    else None
  }

  // The sampler may rewrite the logits it was given, not others.
  function Rewritten(buffer: seq<real>, values: seq<real>, written: nat): (r: seq<real>)
    requires written <= |buffer|
    ensures |r| == |buffer|
  {
    if |values| <= written then Overwrite(buffer, values) else Overwrite(buffer, values[..written])
  }

  // One prefill or decode, chosen by what was generated so far.
  function BackendCall(m: Machine, job: Job, run: Run): Checked {
    if run.generated == [] then PrefillChecked(m.kernel, run.sequence, job.prompt, true, run.logits)
    else DecodeChecked(m.kernel, run.sequence, run.generated[|run.generated| - 1], run.logits)
  }

  // Sampling after a backend answer of `written` logits.
  function Sample(m: Machine, job: Job, run: Run, checked: Checked, written: nat): StepResult {
    if written > |checked.buffer| then Stopped(Failure(BackendContractViolation))
    else
      var sampled := m.sampling.sample(run.sampler, checked.buffer[..written], job.prompt + run.generated);
      match sampled.token
      case Err(code) => Stopped(Failure(SamplingFailed(code)))
      case Ok(token) =>
        Continued(Run(checked.sequence, Rewritten(checked.buffer, sampled.logits, written), sampled.sampler, run.generated + [token]))
  }

  function LoopStep(m: Machine, job: Job, run: Run): StepResult {
    var checked := BackendCall(m, job, run);
    match checked.answer
    case Err(error) => Stopped(Failure(SequenceFailed(error)))
    case Ok(Ended(reason)) => Stopped(Graceful(reason))
    case Ok(Ready(_, _, written)) => Sample(m, job, run, checked, written)
  }

  lemma StepAppends(m: Machine, job: Job, run: Run)
    ensures var s := LoopStep(m, job, run);
            s.Continued? ==> |s.run.generated| == |run.generated| + 1 && run.generated < s.run.generated
  {
    hide PrefillChecked, DecodeChecked, Rewritten;
  }

  // The reference: prefill, sample, then decode and sample until a token ends it, with
  // nothing interleaved, nothing yielded and nothing published on the way.
  ghost function Reference(m: Machine, job: Job, run: Run): (r: Generated)
    requires |run.generated| < job.maximumGenerated
    ensures run.generated <= r.tokens && |r.tokens| <= job.maximumGenerated
    decreases job.maximumGenerated - |run.generated|
  {
    StepAppends(m, job, run);
    match LoopStep(m, job, run)
    case Stopped(outcome) => Generated(run.generated, outcome)
    case Continued(next) =>
      var finish := FinishAfter(job, next.generated);
      if finish.Some? then Generated(next.generated, Graceful(finish.value)) else Reference(m, job, next)
  }

  // ----- When a generation ends -----

  // The stop sequence's tokens are the last ones generated.
  ghost predicate StopReached(stop: StopSequence, tokens: seq<Token>) {
    |stop.tokens| <= |tokens| && forall k :: 0 <= k < |stop.tokens| ==> tokens[|tokens| - |stop.tokens| + k] == stop.tokens[k]
  }

  // Nothing about these tokens ends the generation.
  ghost predicate GoesOn(job: Job, tokens: seq<Token>) {
    && (tokens != [] ==> tokens[|tokens| - 1] !in job.eosTokens)
    && (forall i :: 0 <= i < |job.stops| ==> !StopReached(job.stops[i], tokens))
    && |tokens| < job.maximumGenerated
  }

  // The last of these tokens ends the generation, for this reason: an end token comes
  // before a stop sequence, and a stop sequence before the limit.
  ghost predicate EndedBy(job: Job, tokens: seq<Token>, reason: FinishReason) {
    && tokens != []
    && var last := tokens[|tokens| - 1];
       match reason
       case EndOfSequence(token) => token == last && last in job.eosTokens
       case StopCondition => last !in job.eosTokens && exists i :: 0 <= i < |job.stops| && StopReached(job.stops[i], tokens)
       case TokenLimit =>
         && |tokens| == job.maximumGenerated && last !in job.eosTokens
         && forall i :: 0 <= i < |job.stops| ==> !StopReached(job.stops[i], tokens)
       case _ => false
  }

  lemma FinishMeans(job: Job, tokens: seq<Token>)
    requires tokens != [] && |tokens| <= job.maximumGenerated
    ensures FinishAfter(job, tokens).None? <==> GoesOn(job, tokens)
    ensures FinishAfter(job, tokens).Some? ==> EndedBy(job, tokens, FinishAfter(job, tokens).value)
    ensures GoesOn(job, tokens) ==> |tokens| < job.maximumGenerated
  {
    forall stop: StopSequence
      ensures EndsWith(tokens, stop.tokens) <==> StopReached(stop, tokens)
    {
    }
  }

  // The backend or the sampler, and not a token, ended the generation: the next step of
  // the loop stops with this outcome.
  ghost predicate StoppedAt(m: Machine, job: Job, last: Run, tokens: seq<Token>, outcome: GenerationOutcome) {
    last.generated == tokens && LoopStep(m, job, last) == Stopped(outcome)
  }

  // The simple loop goes on exactly as long as no token ends it and the backend answers,
  // and its outcome is the reason the last token gives, or what the backend said.
  lemma {:induction false} ReferenceEnds(m: Machine, job: Job, run: Run)
    requires |run.generated| < job.maximumGenerated
    ensures var r := Reference(m, job, run);
            && (forall k :: |run.generated| < k < |r.tokens| ==> GoesOn(job, r.tokens[..k]))
            && (|| (|run.generated| < |r.tokens| && r.outcome.Graceful? && EndedBy(job, r.tokens, r.outcome.reason))
                || (&& (|run.generated| < |r.tokens| ==> GoesOn(job, r.tokens))
                    && exists last :: StoppedAt(m, job, last, r.tokens, r.outcome)))
    decreases job.maximumGenerated - |run.generated|
  {
    hide LoopStep, GoesOn, EndedBy, FinishAfter;
    StepAppends(m, job, run);
    match LoopStep(m, job, run)
    case Stopped(outcome) =>
      assert StoppedAt(m, job, run, run.generated, outcome);
    case Continued(next) =>
      FinishMeans(job, next.generated);
      if FinishAfter(job, next.generated).None? {
        ReferenceEnds(m, job, next);
        var r := Reference(m, job, next);
        assert r.tokens[..|next.generated|] == next.generated;
        assert |r.tokens| == |next.generated| ==> r.tokens == next.generated;
      }
  }

  // What is still to come for a run whose last token may be the final one.
  ghost function Rest(m: Machine, job: Job, run: Run): (r: Generated)
    requires |run.generated| <= job.maximumGenerated && 0 < job.maximumGenerated
    ensures run.generated <= r.tokens && |r.tokens| <= job.maximumGenerated
  {
    if run.generated == [] then Reference(m, job, run)
    else
      var finish := FinishAfter(job, run.generated);
      if finish.Some? then Generated(run.generated, Graceful(finish.value)) else Reference(m, job, run)
  }

  // One step of the loop, seen from what is still to come.
  lemma RestUnfolds(m: Machine, job: Job, run: Run)
    requires |run.generated| <= job.maximumGenerated && 0 < job.maximumGenerated
    requires run.generated != [] ==> FinishAfter(job, run.generated).None?
    ensures |run.generated| < job.maximumGenerated
    ensures var s := LoopStep(m, job, run);
            match s
            case Stopped(outcome) => Rest(m, job, run) == Generated(run.generated, outcome)
            case Continued(next) => |next.generated| <= job.maximumGenerated && Rest(m, job, run) == Rest(m, job, next)
  {
    hide LoopStep;
    StepAppends(m, job, run);
  }

  // ----- Publication order -----

  datatype Stage =
    | Streaming
    | Announced(outcome: GenerationOutcome)
    | Cleaning(outcome: GenerationOutcome)
    | Stuck(outcome: GenerationOutcome)
    | Closed(outcome: GenerationOutcome)
    | Violated

  // The next stage after one publication of the same request.
  function NextStage(stage: Stage, push: Push<OutputState>): Stage {
    match stage
    case Streaming =>
      if push.TokensPush? || push.payload.Yielded? then Streaming
      else if push.payload.Terminal? then Announced(push.payload.outcome)
      else Violated
    case Announced(outcome) =>
      if push.TokensPush? then Violated
      else if push.payload.CleanupPending? && push.payload.outcome == outcome then Cleaning(outcome)
      else if push.payload == Finalized(outcome) then Closed(outcome)
      else Violated
    case Cleaning(outcome) =>
      if push.TokensPush? then Violated
      else if push.payload.CleanupExhausted? && push.payload.outcome == outcome then Stuck(outcome)
      else if push.payload == Finalized(outcome) then Closed(outcome)
      else Violated
    case Stuck(outcome) =>
      if push.StatePush? && push.payload == Finalized(outcome) then Closed(outcome) else Violated
    case _ => Violated
  }

  function StageOf(published: Log): Stage {
    if published == [] then Streaming
    else NextStage(StageOf(published[..|published| - 1]), published[|published| - 1])
  }

  predicate IsBody(push: Push<OutputState>) {
    push.TokensPush? || push.payload.Yielded?
  }

  predicate IsTerminal(push: Push<OutputState>, outcome: GenerationOutcome) {
    push.StatePush? && push.payload == Terminal(outcome)
  }

  predicate IsCleanup(push: Push<OutputState>, outcome: GenerationOutcome) {
    push.StatePush? && push.payload.CleanupPending? && push.payload.outcome == outcome
  }

  predicate IsExhaustion(push: Push<OutputState>, outcome: GenerationOutcome) {
    push.StatePush? && push.payload.CleanupExhausted? && push.payload.outcome == outcome
  }

  predicate IsFinal(push: Push<OutputState>, outcome: GenerationOutcome) {
    push.StatePush? && push.payload == Finalized(outcome)
  }

  // What follows the tokens and yields, for each stage.
  predicate TailOf(tail: Log, stage: Stage) {
    match stage
    case Streaming => tail == []
    case Announced(outcome) => |tail| == 1 && IsTerminal(tail[0], outcome)
    case Cleaning(outcome) => |tail| == 2 && IsTerminal(tail[0], outcome) && IsCleanup(tail[1], outcome)
    case Stuck(outcome) => |tail| == 3 && IsTerminal(tail[0], outcome) && IsCleanup(tail[1], outcome) && IsExhaustion(tail[2], outcome)
    case Closed(outcome) =>
      && 2 <= |tail| <= 4
      && IsTerminal(tail[0], outcome)
      && (|tail| > 2 ==> IsCleanup(tail[1], outcome))
      && (|tail| > 3 ==> IsExhaustion(tail[2], outcome))
      && IsFinal(tail[|tail| - 1], outcome)
    case Violated => false
  }

  lemma TailGrows(tail: Log, stage: Stage, push: Push<OutputState>)
    requires TailOf(tail, stage) && stage != Streaming && NextStage(stage, push) != Violated
    ensures TailOf(tail + [push], NextStage(stage, push))
  {
  }

  // What the stages mean: tokens and yields first, then one terminal record, at most
  // one cleanup and one exhaustion record and one final record, all with one outcome.
  lemma {:induction false} PublicationOrder(published: Log) returns (n: nat)
    requires StageOf(published) != Violated
    ensures n <= |published|
    ensures forall i :: 0 <= i < n ==> IsBody(published[i])
    ensures TailOf(published[n..], StageOf(published))
    ensures StageOf(published) == Streaming ==> n == |published|
  {
    hide TailOf, IsBody, NextStage;
    if published == [] {
      n := 0;
      StreamingTail();
      assert published[n..] == [];
    } else {
      var last := |published| - 1;
      var before := StageOf(published[..last]);
      NotAfterViolation(before, published[last]);
      n := PublicationOrder(published[..last]);
      assert forall i :: 0 <= i < n ==> published[i] == published[..last][i];
      if before == Streaming {
        BodyOrTerminal(published[last]);
        StreamingTail();
        if StageOf(published) == Streaming {
          n := |published|;
          assert published[n..] == [];
        } else {
          assert published[n..] == [published[last]];
        }
      } else {
        TailGrows(published[..last][n..], before, published[last]);
        assert published[n..] == published[..last][n..] + [published[last]];
      }
    }
  }

  lemma StreamingTail()
    ensures TailOf([], Streaming)
  {
  }

  lemma NotAfterViolation(stage: Stage, push: Push<OutputState>)
    requires NextStage(stage, push) != Violated
    ensures stage != Violated && (stage != Streaming ==> NextStage(stage, push) != Streaming)
  {
  }

  lemma BodyOrTerminal(push: Push<OutputState>)
    requires NextStage(Streaming, push) != Violated
    ensures if NextStage(Streaming, push) == Streaming then IsBody(push) else TailOf([push], NextStage(Streaming, push))
  {
  }

  lemma StageAfter(published: Log, push: Push<OutputState>)
    ensures StageOf(published + [push]) == NextStage(StageOf(published), push)
  {
    assert (published + [push])[..|published|] == published;
  }

  lemma TokensAfter(published: Log, push: Push<OutputState>)
    ensures AllTokens(published + [push]) == AllTokens(published) + if push.TokensPush? then push.tokens else []
  {
    assert (published + [push])[..|published|] == published;
  }

  // The publications of one request, in order.
  function ForRequest(log: Log, r: RequestId): Log {
    if log == [] then []
    else
      var last := log[|log| - 1];
      ForRequest(log[..|log| - 1], r) + if last.request == r then [last] else []
  }

  // ----- What holds of a task at every moment -----

  // The ghost record of one task: how it started, its backend sequence now, where the
  // log stood at admission, what it published since, and whether a direct command
  // ever executed its sequence behind the scheduler's back.
  datatype Trace = Trace(origin: Run, current: Sequence, from: nat, published: Log, touched: bool)

  function RunOf(task: Task, trace: Trace): Run {
    Run(trace.current, task.logits, task.sampler, task.generated)
  }

  ghost predicate Shaped(task: Task) {
    && task.job.prompt != []
    && 0 < task.job.maximumGenerated
    && 0 < task.quantum
    && |task.generated| <= task.job.maximumGenerated
    && task.history == task.job.prompt + task.generated
    && (task.pendingToken.Some? ==> task.generated != [] && task.generated[|task.generated| - 1] == task.pendingToken.value)
    && (task.phase.PrefillPhase? ==> |task.generated| == if task.pendingToken.Some? then 1 else 0)
    && (task.phase.DecodePhase? ==> task.generated != [])
    && (task.phase.DecodePhase? && task.pendingToken.None? ==> FinishAfter(task.job, task.generated).None?)
    && (task.phase.TerminalPhase? ==>
          && (task.phase.terminal.exhaustionPublished ==> task.phase.terminal.cleanupPublished)
          && (task.phase.terminal.cleanupPublished ==> task.phase.terminal.terminalPublished && task.phase.terminal.initialCleanup.Some?))
  }

  // The stage a task's publications must have reached.
  function PhaseStage(phase: Phase): Stage {
    if !phase.TerminalPhase? || !phase.terminal.terminalPublished then Streaming
    else if phase.terminal.exhaustionPublished then Stuck(phase.terminal.outcome)
    else if phase.terminal.cleanupPublished then Cleaning(phase.terminal.outcome)
    else Announced(phase.terminal.outcome)
  }

  // Every sampled token was published, in order, except one still pending.
  ghost predicate Streamed(task: Task, trace: Trace)
    requires Shaped(task)
  {
    && StageOf(trace.published) == PhaseStage(task.phase)
    && AllTokens(trace.published) ==
       if task.pendingToken.Some? then task.generated[..|task.generated| - 1] else task.generated
  }

  // Ways a generation ends that the simple loop does not know.
  predicate Interrupted(outcome: GenerationOutcome) {
    match outcome
    case Graceful(reason) => reason.Cancelled?
    case Failure(error) => error.RequestNotActive? || error.CleanupFailed? || error == LifecycleFailed(InvalidTransition)
  }

  // Until it ends, the task is a state of the simple loop; then it has published all
  // the loop produces and ended as the loop ends, unless it was interrupted.
  ghost predicate Follows(m: Machine, task: Task, trace: Trace)
    requires Shaped(task)
  {
    && trace.origin.generated == []
    && var reference := Reference(m, task.job, trace.origin);
       if task.phase.TerminalPhase? then
         && task.generated <= reference.tokens
         && ((task.phase.terminal.outcome == reference.outcome && AllTokens(trace.published) == reference.tokens)
             || Interrupted(task.phase.terminal.outcome))
       else Rest(m, task.job, RunOf(task, trace)) == reference
  }

  // What admission guaranteed about the sequence the generation started on.
  predicate AdmittedOn(job: Job, origin: Run) {
    && origin.generated == []
    && origin.sequence.calls == []
    && |job.prompt| + job.maximumGenerated <= origin.sequence.tokenCapacity
  }

  ghost predicate TaskFaithful(m: Machine, task: Task, trace: Trace) {
    && Shaped(task)
    && AdmittedOn(task.job, trace.origin)
    && Streamed(task, trace)
    && (!trace.touched ==> Follows(m, task, trace))
  }

  // What a consumer can rely on at any moment, whatever else the worker interleaved:
  // the published tokens are a prefix of the simple loop's, at most the last sampled
  // token is withheld, and an uninterrupted end has published all of them.
  lemma PublishedIsPrefix(m: Machine, task: Task, trace: Trace)
    requires TaskFaithful(m, task, trace) && !trace.touched
    ensures var reference, tokens := Reference(m, task.job, trace.origin), AllTokens(trace.published);
            && tokens <= task.generated <= reference.tokens
            && |task.generated| <= |tokens| + 1
            && |tokens| <= task.job.maximumGenerated
            && (task.phase.TerminalPhase? && !Interrupted(task.phase.terminal.outcome) ==>
                  tokens == reference.tokens && task.phase.terminal.outcome == reference.outcome)
  {
    hide StageOf, AllTokens;
  }

  // What a consumer sees of when generation ends, whatever the worker interleaved: no
  // published token but the last ends it, a published token that does ends it at once, and
  // an uninterrupted end is the one the last token gives, or what the backend said.
  lemma PublishedEnds(m: Machine, task: Task, trace: Trace)
    requires TaskFaithful(m, task, trace) && !trace.touched
    ensures var tokens := AllTokens(trace.published);
            && |tokens| <= task.job.maximumGenerated
            && (forall k :: 0 < k < |tokens| ==> GoesOn(task.job, tokens[..k]))
            && (!task.phase.TerminalPhase? && tokens != [] ==> GoesOn(task.job, tokens))
            && (task.phase.TerminalPhase? && !Interrupted(task.phase.terminal.outcome) ==>
                  var outcome := task.phase.terminal.outcome;
                  || (outcome.Graceful? && EndedBy(task.job, tokens, outcome.reason))
                  || ((tokens != [] ==> GoesOn(task.job, tokens)) && exists last :: StoppedAt(m, task.job, last, tokens, outcome)))
  {
    PublishedIsPrefix(m, task, trace);
    OriginFits(m, task, trace);
    if !task.phase.TerminalPhase? {
      StillGoing(m, task, trace);
    }
    hide TaskFaithful, Reference, GoesOn, EndedBy, StoppedAt, AllTokens, Interrupted;
    ReferenceEnds(m, task.job, trace.origin);
    PrefixGoesOn(task.job, AllTokens(trace.published), Reference(m, task.job, trace.origin).tokens);
  }

  lemma PrefixGoesOn(job: Job, tokens: seq<Token>, whole: seq<Token>)
    requires tokens <= whole && forall k :: 0 < k < |whole| ==> GoesOn(job, whole[..k])
    ensures forall k :: 0 < k < |tokens| ==> GoesOn(job, tokens[..k])
    ensures 0 < |tokens| < |whole| ==> GoesOn(job, tokens)
  {
    hide GoesOn;
    forall k | 0 < k < |tokens|
      ensures GoesOn(job, tokens[..k])
    {
      assert tokens[..k] == whole[..k];
    }
    assert tokens == whole[..|tokens|];
  }

  lemma OriginFits(m: Machine, task: Task, trace: Trace)
    requires TaskFaithful(m, task, trace)
    ensures trace.origin.generated == [] && 0 < task.job.maximumGenerated
  {
    hide StageOf, AllTokens, Reference, Rest;
  }

  // A task that is neither terminal nor about to publish has published all it generated,
  // and none of that ended it.
  lemma StillGoing(m: Machine, task: Task, trace: Trace)
    requires TaskFaithful(m, task, trace) && !task.phase.TerminalPhase?
    ensures var tokens := AllTokens(trace.published);
            if task.pendingToken.Some? then |tokens| < |task.generated|
            else tokens == task.generated && (tokens != [] ==> GoesOn(task.job, tokens))
  {
    hide StageOf, AllTokens, Reference, Rest, GoesOn, FinishAfter;
    if task.generated != [] {
      FinishMeans(task.job, task.generated);
    }
  }

  // ----- Progress -----

  // Publications and backend steps a task still needs before it is removed.
  function Remaining(task: Task): nat {
    match task.phase
    case TerminalPhase(t) =>
      4 - (if t.terminalPublished then 1 else 0) - (if t.cleanupPublished then 1 else 0) - (if t.exhaustionPublished then 1 else 0)
    case _ =>
      5 + 2 * SaturatingSub(task.job.maximumGenerated, |task.generated|) + if task.pendingToken.Some? then 1 else 0
  }

  // ----- Admitted generations fit -----

  function Fed(calls: seq<Call>): nat {
    if calls == [] then 0
    else
      var last := calls[|calls| - 1];
      Fed(calls[..|calls| - 1]) + if last.PrefillCall? then |last.tokens| else 1
  }

  // A backend that consumes exactly what it is fed, needs no more logits than the
  // vocabulary, and never reports exhaustion of its own.
  ghost predicate Advancing(kernel: Kernel, vocabulary: nat) {
    forall key, calls, call ::
      var done := kernel.execute(key, calls, call);
      && kernel.requiredLogits(key, calls, call) <= vocabulary
      && (done.answer.Ok? && done.answer.value.Ready? ==> done.state == SequenceReady && done.position == Fed(calls + [call]))
      && (done.answer.Ok? && done.answer.value.Ended? ==> !done.answer.value.reason.BufferExhausted?)
      && (done.answer.Err? ==> !done.answer.error.SequenceCapacity?)
  }

  // A run of such a backend after `|generated|` tokens.
  ghost predicate OnTrack(job: Job, run: Run, vocabulary: nat) {
    && |run.logits| == vocabulary
    && run.sequence.position == Fed(run.sequence.calls)
    && |job.prompt| + job.maximumGenerated <= run.sequence.tokenCapacity
    && if run.generated == [] then run.sequence.calls == [] && run.sequence.state == Empty
       else run.sequence.state == SequenceReady && Fed(run.sequence.calls) == |job.prompt| + |run.generated| - 1
  }

  lemma FedAfter(calls: seq<Call>, call: Call)
    ensures Fed(calls + [call]) == Fed(calls) + if call.PrefillCall? then |call.tokens| else 1
  {
    assert (calls + [call])[..|calls|] == calls;
  }

  lemma StepFits(m: Machine, job: Job, run: Run, vocabulary: nat)
    requires Advancing(m.kernel, vocabulary) && OnTrack(job, run, vocabulary)
    requires |run.generated| < job.maximumGenerated
    ensures BackendCall(m, job, run).entered
    ensures var s := LoopStep(m, job, run);
            match s
            case Stopped(outcome) => !(outcome.Graceful? && outcome.reason.BufferExhausted?)
            case Continued(next) => OnTrack(job, next, vocabulary)
  {
    hide Overwrite;
    var s := run.sequence;
    var call := if run.generated == [] then PrefillCall(job.prompt, true) else DecodeCall(run.generated[|run.generated| - 1]);
    var done := m.kernel.execute(s.key, s.calls, call);
    assert m.kernel.requiredLogits(s.key, s.calls, call) <= vocabulary;
    FedAfter(s.calls, call);
  }

  // An admitted request (prompt and limit within the sequence capacity) on such a
  // backend never runs out of sequence or logits space, at any step.
  lemma {:induction false} AdmittedFits(m: Machine, job: Job, run: Run, vocabulary: nat)
    requires Advancing(m.kernel, vocabulary) && OnTrack(job, run, vocabulary)
    requires |run.generated| < job.maximumGenerated
    ensures var outcome := Reference(m, job, run).outcome;
            !(outcome.Graceful? && outcome.reason.BufferExhausted?)
    decreases job.maximumGenerated - |run.generated|
  {
    hide LoopStep, OnTrack, Advancing, BackendCall;
    StepAppends(m, job, run);
    StepFits(m, job, run, vocabulary);
    var s := LoopStep(m, job, run);
    if s.Continued? && FinishAfter(job, s.run.generated).None? {
      AdmittedFits(m, job, s.run, vocabulary);
    }
  }

  // ... so no scheduled generation ends for lack of space, whatever else is
  // interleaved: on such a backend, started from an empty sequence, neither a token nor a
  // logits buffer is ever exhausted.
  lemma NeverExhausted(m: Machine, task: Task, trace: Trace)
    requires TaskFaithful(m, task, trace) && !trace.touched && task.phase.TerminalPhase?
    requires Advancing(m.kernel, |trace.origin.logits|)
    requires trace.origin.sequence.position == 0 && trace.origin.sequence.state == Empty
    ensures var outcome := task.phase.terminal.outcome; !(outcome.Graceful? && outcome.reason.BufferExhausted?)
  {
    hide Streamed, Advancing, Reference, FinishAfter;
    AdmittedFits(m, task.job, trace.origin, |trace.origin.logits|);
  }
}
