// Each way a task moves on keeps it faithful to the simple loop.
module TaskSteps {
  import opened Common
  import opened RuntimeTypes
  import opened Backends
  import opened Registry
  import opened RegistrySteps
  import opened TokenOutput
  import opened Generation
  import opened SchedulerSpec

  // The loop state a task stands for when its request really holds `sequence`.
  function RunWith(task: Task, sequence: Sequence): Run {
    Run(sequence, task.logits, task.sampler, task.generated)
  }

  // The task ends: its run did, its last token did, or something interrupted it.
  lemma TaskEnds(m: Machine, r: RequestId, before: Registry, g: Registry, task: Task, trace: Trace, next: Task, outcome: GenerationOutcome, current: Sequence)
    requires TaskFaithful(m, task, trace) && !task.phase.TerminalPhase?
    requires next == task.(phase := next.phase, cancellation := next.cancellation, logits := next.logits, sampler := next.sampler)
    requires Entered(before, g, r, next.phase, outcome) && r !in g.requestIndex
    requires Interrupted(outcome)
             || (!trace.touched ==> Reference(m, task.job, trace.origin) == Generated(AllTokens(trace.published), outcome))
    ensures TaskFaithful(m, next, trace.(current := current))
    ensures Registered(g, r, next, trace.(current := current))
    ensures Remaining(next) < Remaining(task)
  {
    hide Reference, FinishAfter, Interrupted, Entered, StageOf, AllTokens, HasRequest;
    EnteredMeans(before, g, r, next.phase, outcome);
    if !trace.touched {
      assert task.generated <= Rest(m, task.job, RunOf(task, trace)).tokens;
    }
    hide Rest;
  }

  lemma LastToken(job: Job, generated: seq<Token>)
    requires generated != [] && FinishAfter(job, generated).None?
    ensures |generated| < job.maximumGenerated
  {
  }

  lemma RoomForToken(task: Task)
    requires Shaped(task) && !task.phase.TerminalPhase? && task.pendingToken.None?
    ensures |task.generated| < task.job.maximumGenerated
    ensures task.generated == [] <==> task.phase.PrefillPhase?
    ensures task.generated != [] ==> FinishAfter(task.job, task.generated).None?
  {
    if task.generated != [] {
      LastToken(task.job, task.generated);
    }
    hide FinishAfter;
  }

  // The loop's own step ended the run.
  lemma RunStops(m: Machine, task: Task, trace: Trace, sequence: Sequence, outcome: GenerationOutcome)
    requires TaskFaithful(m, task, trace) && !task.phase.TerminalPhase? && task.pendingToken.None?
    requires !trace.touched ==> sequence == trace.current
    requires LoopStep(m, task.job, RunWith(task, sequence)) == Stopped(outcome)
    ensures !trace.touched ==> Reference(m, task.job, trace.origin) == Generated(AllTokens(trace.published), outcome)
  {
    RoomForToken(task);
    hide LoopStep, FinishAfter, Rest, AllTokens, StageOf, Reference;
    RestUnfolds(m, task.job, RunWith(task, sequence));
  }

  // The task after the loop's own step sampled one more token.
  function SampledTask(task: Task, next: Run): Task
    requires next.generated != []
  {
    var token := next.generated[|next.generated| - 1];
    task.(logits := next.logits, sampler := next.sampler, generated := next.generated,
          history := task.history + [token], pendingToken := Some(token))
  }

  lemma RunContinues(m: Machine, task: Task, trace: Trace, sequence: Sequence, next: Run)
    requires TaskFaithful(m, task, trace) && !task.phase.TerminalPhase? && task.pendingToken.None?
    requires !trace.touched ==> sequence == trace.current
    requires LoopStep(m, task.job, RunWith(task, sequence)) == Continued(next)
    ensures next.generated != [] && next.generated == task.generated + [next.generated[|next.generated| - 1]]
    ensures TaskFaithful(m, SampledTask(task, next), trace.(current := next.sequence))
    ensures Remaining(SampledTask(task, next)) < Remaining(task)
  {
    RoomForToken(task);
    StepAppends(m, task.job, RunWith(task, sequence));
    hide LoopStep, FinishAfter, Rest, AllTokens, StageOf, Reference;
    RestUnfolds(m, task.job, RunWith(task, sequence));
    assert next.generated == task.generated + [next.generated[|next.generated| - 1]];
    assert next.generated[..|next.generated| - 1] == task.generated;
  }

  // The pending token went out.
  lemma TokenPublished(m: Machine, r: RequestId, task: Task, trace: Trace)
    requires TaskFaithful(m, task, trace) && !task.phase.TerminalPhase? && task.pendingToken.Some?
    ensures var next, trace' := task.(pendingToken := None), trace.(published := trace.published + [TokensPush(r, [task.pendingToken.value])]);
            && AllTokens(trace'.published) == task.generated
            && StageOf(trace'.published) == Streaming
            && task.generated != []
            && (FinishAfter(task.job, task.generated).None? ==> TaskFaithful(m, next.(phase := DecodePhase), trace'))
            && (!trace.touched && FinishAfter(task.job, task.generated).Some? ==>
                  Reference(m, task.job, trace.origin)
                  == Generated(task.generated, Graceful(FinishAfter(task.job, task.generated).value)))
            && Remaining(next.(phase := DecodePhase)) < Remaining(task)
  {
    hide FinishAfter, Reference;
    var push := TokensPush(r, [task.pendingToken.value]);
    TokensAfter(trace.published, push);
    StageAfter(trace.published, push);
    hide AllTokens, StageOf;
    assert task.generated[..|task.generated| - 1] + [task.pendingToken.value] == task.generated;
    assert Rest(m, task.job, RunOf(task, trace)) == Rest(m, task.job, RunOf(task.(pendingToken := None, phase := DecodePhase), trace));
  }

  // A yield record went out.
  lemma YieldPublished(m: Machine, r: RequestId, task: Task, trace: Trace, capacity: Capacity)
    requires TaskFaithful(m, task, trace) && !task.phase.TerminalPhase?
    ensures TaskFaithful(m, task.(pendingYield := None), trace.(published := trace.published + [StatePush(r, Yielded(capacity))]))
  {
    hide FinishAfter, Reference;
    var push := StatePush(r, Yielded(capacity));
    TokensAfter(trace.published, push);
    StageAfter(trace.published, push);
    hide AllTokens, StageOf;
    assert RunOf(task, trace) == RunOf(task.(pendingYield := None), trace.(published := trace.published + [push]));
    hide Rest;
  }

  // One of the terminal records went out and its flag was set.
  lemma StatePublished(m: Machine, r: RequestId, task: Task, trace: Trace, payload: OutputState, terminal: TerminalPublication)
    requires TaskFaithful(m, task, trace) && task.phase.TerminalPhase?
    requires terminal.outcome == task.phase.terminal.outcome && terminal.initialCleanup == task.phase.terminal.initialCleanup
    requires terminal.exhaustionPublished ==> terminal.cleanupPublished
    requires terminal.cleanupPublished ==> terminal.terminalPublished && terminal.initialCleanup.Some?
    requires NextStage(PhaseStage(task.phase), StatePush(r, payload)) == PhaseStage(TerminalPhase(terminal))
    ensures TaskFaithful(m, task.(phase := TerminalPhase(terminal)), trace.(published := trace.published + [StatePush(r, payload)]))
  {
    hide FinishAfter, Reference, NextStage;
    var push := StatePush(r, payload);
    TokensAfter(trace.published, push);
    StageAfter(trace.published, push);
    hide AllTokens, StageOf, Rest;
  }
}
