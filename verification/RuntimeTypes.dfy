// Identities, reports and errors shared by the registry and the scheduler
// (error.rs, identifiers.rs, generation.rs and sequence.rs).
module RuntimeTypes {
  import opened Common
  import opened Footprints
  import opened Lifecycle

  type ModelId = nat
  type RequestId = nat
  type SequenceId = nat
  type Token = nat

  datatype ModelHandle = ModelHandle(id: ModelId, generation: nat)

  datatype Metadata = Metadata(vocabularySize: u32, fingerprint: nat)

  datatype Descriptor = Descriptor(metadata: Metadata, maximumSequences: u32)

  datatype SequenceConfiguration = SequenceConfiguration(maximumTokens: u32, maximumPrefillBatch: u32)

  datatype CapacityResource =
    | Tokens | Logits | OutputRecords | ActiveRequests | ActiveSequences

  datatype Capacity = Capacity(resource: CapacityResource, required: nat, available: nat)

  datatype FinishReason =
    | EndOfSequence(token: Token)
    | TokenLimit
    | StopCondition
    | BufferExhausted(capacity: Capacity)
    | Cancelled(reason: CancellationReason)

  datatype SequenceError =
    | InvalidState
    | SequenceCapacity(capacity: Capacity)
    | SequenceCancelled(reason: CancellationReason)
    | BackendFailure(code: nat)

  datatype RuntimeOperation =
    | ModelAdmission | SequenceAdmission | Prefill | Decode | Sampling | Completion
    | Cancellation | SequenceDestruction | ModelUnloading | ShutdownOperation

  datatype FailureClass =
    | ContractFailure | LoadFailure | ModelFailure | SequenceFailure | SynchronizationFailure
    | LifecycleFailure | CapacityFailure | SamplingFailure | CompletionClass | CancellationClass
    | ShutdownClass | InvariantFailure

  datatype CleanupReport = CleanupReport(
    primaryOperation: RuntimeOperation,
    primaryFailure: FailureClass,
    cleanupOperation: RuntimeOperation,
    cleanupFailure: FailureClass
  )

  datatype CleanupResource =
    | ModelResource(model: ModelId)
    | SequenceResource(model: ModelId, request: RequestId, sequence: SequenceId)

  datatype RetryState = RetryState(resource: CleanupResource, failure: CleanupReport, attempts: nat, maximum: nat) {
    predicate Exhausted() {
      attempts >= maximum
    }
  }

  datatype CleanupPoll =
    | Idle
    | Released(state: RetryState)
    | RetryFailed(state: RetryState)
    | ExhaustedRetry(state: RetryState)

  datatype LoadReceipt = LoadReceipt(handle: ModelHandle, descriptor: Descriptor, reserved: Footprint)

  datatype StartReceipt = StartReceipt(request: RequestId, sequence: SequenceId, logitsCapacity: nat, reserved: Footprint)

  datatype UnloadStatus = StillDraining | UnloadDone | AlreadyAbsent

  datatype UnloadReceipt = UnloadReceipt(handle: ModelHandle, status: UnloadStatus, cancelled: nat)

  datatype MemoryKind = Host | Device

  datatype RuntimeError =
    | ModelAlreadyLoaded(model: ModelId)
    | ModelNotLoaded(model: ModelId)
    | StaleModelHandle(provided: ModelHandle, current: ModelHandle)
    | RequestAlreadyActive(request: RequestId)
    | RequestNotActive(request: RequestId)
    | SequenceAlreadyActive(sequence: SequenceId)
    | ModelGenerationExhausted(model: ModelId)
    | ShuttingDown
    | LoadedModelLimit(required: nat, available: nat)
    | MemoryOverflow
    | MemoryUnderflow
    | CapacityExhausted(capacity: Capacity)
    | InsufficientMemory(kind: MemoryKind, required: nat, available: nat)
    | LoadError(code: nat)
    | ModelError(code: nat)
    | SequenceFailed(error: SequenceError)
    | SynchronizationError(code: nat)
    | LifecycleFailed(cause: LifecycleError)
    | BackendContractViolation
    | ModelDegraded(model: ModelId)
    | SamplingFailed(code: nat)
    | CleanupFailed(report: CleanupReport)
    | CleanupRetryExhausted(state: RetryState)
  {
    // The two errors that mean "the resource is quarantined, not lost".
    predicate RetainsResource() {
      CleanupFailed? || CleanupRetryExhausted?
    }
  }

  function RetentionError(state: RetryState): RuntimeError {
    if state.Exhausted() then CleanupRetryExhausted(state) else CleanupFailed(state.failure)
  }

  function FinishOperation(reason: FinishReason): RuntimeOperation {
    if reason.Cancelled? then Cancellation else Completion
  }

  function FinishFailureClass(reason: FinishReason): FailureClass {
    match reason
    case Cancelled(_) => CancellationClass
    case BufferExhausted(_) => CapacityFailure
    case _ => CompletionClass
  }

  type Outcome<T> = Result<T, RuntimeError>
}
