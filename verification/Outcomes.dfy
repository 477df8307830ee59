/** Terminal results of lifecycle commands: what the protocol accepts as a result, how the node
    classifies a finished run, and how the journal classifies an interrupted one.
 */
module Outcomes {
  import opened Messages
  import opened Receipts

  /******* What a result may claim *******/

  predicate HasUnknown(r: Option<Receipt>) {
    r.Some? && Unknown in [r.value.pane, r.value.launch, r.value.prompt, r.value.stop]
  }

  predicate HasEffect(r: Option<Receipt>) {
    r.Some? && !(r.value.pane == r.value.launch == r.value.prompt == r.value.stop == NotAttempted)
  }

  predicate Complete(r: Option<Receipt>, c: Command) {
    && r.Some?
    && if c.body.StopBody? then r.value.stop == Confirmed
       else
         && r.value.pane == Confirmed && r.value.launch == Confirmed
         && (!PromptRequested(c) || r.value.prompt == Confirmed)
  }

  predicate ValidSessionError(d: Detail) {
    || d in {SessionManagerUnavailable, SessionUnavailable, SessionReplaced, SessionStartFailed,
             UnsupportedProtocol, SessionDefaultUnmanaged, SessionCapacity, PreconditionFailed}
  }

  // protocol.ValidLifecycleDetail
  predicate ValidDetail(d: Detail) {
    !d.StartupUncertain? && !d.OtherDetail?
  }

  // protocol.ValidateLifecycleResult
  predicate ValidResult(result: Result, c: Command) {
    && IsLifecycle(c.body)
    && result.id == c.id
    && ValidDetail(result.detail)
    && (result.detail in {AgentStarted, AgentStopped} ==> result.status == Succeeded)
    && (result.receipt.Some? ==> ValidReceipt(result.receipt.value, c))
    && match result.status
       case Succeeded =>
         && Complete(result.receipt, c)
         && result.detail == if c.body.StartBody? then AgentStarted else AgentStopped
       case Indeterminate =>
         || result.receipt.None? || HasUnknown(result.receipt)
         || result.detail in {PersistenceFailed, NodeDisconnected, ServerRestarted, DeadlineExpired}
       case Failed =>
         HasEffect(result.receipt) && !HasUnknown(result.receipt) && !Complete(result.receipt, c)
       case TimedOut =>
         !HasEffect(result.receipt) && result.detail == DeadlineExpired
       case Rejected =>
         !HasEffect(result.receipt)
       case _ => false
  }

  // protocol.ValidateCommandResult for a result that carries no payload of another command type.
  predicate DeliverableResult(result: Result) {
    || (&& ValidDetail(result.detail) && Terminal(result.status)
        && (|| result.receipt.Some?
            || result.detail in {LifecycleUnresolved, PersistenceFailed}
            || (result.status == Rejected && result.detail == NodeRestarted)))
    || (&& result.receipt.None?
        && match result.status
           case Rejected =>
             || ValidSessionError(result.detail)
             || result.detail in {JournalFull, AuthorizationChanged, ProjectNotAuthorized, HerdrUnavailable,
                                  AgentBusy, AgentBlocked, TargetChanged, Unsupported, LifecycleUnresolved}
           case TimedOut => result.detail == DeadlineExpired
           case Indeterminate => result.detail in {NodeRestarted, StartupUncertain}
           case _ => false)
  }

  /******* Failures of a run *******/

  // The sentinels a joined Go error can be matched against, in the order `errors.Join` lists them.
  datatype Sentinel =
    | Persistence | Precondition | BusyAgent | BlockedAgent | IndeterminateEffect | UnsupportedOperation
    | ChangedTarget | UnavailableAgent | LastPane | Deadline | Canceled | UnresolvedTarget
    | SessionFailure(code: Detail) | OtherFailure

  // nil is the empty list.
  type Errors = seq<Sentinel>

  function FirstSessionFailure(err: Errors): Option<Detail> {
    if err == [] then None
    else if err[0].SessionFailure? then Some(err[0].code)
    else FirstSessionFailure(err[1..])
  }

  // node.lifecycleErrorDetail
  function ErrorDetail(err: Errors): Detail {
    if UnresolvedTarget in err then LifecycleUnresolved
    else if Persistence in err then PersistenceFailed
    else if FirstSessionFailure(err).Some? then FirstSessionFailure(err).value
    else if BlockedAgent in err then AgentBlocked
    else if BusyAgent in err then AgentBusy
    else if ChangedTarget in err then TargetChanged
    else if UnsupportedOperation in err then Unsupported
    else if UnavailableAgent in err then HerdrUnavailable
    else if Deadline in err || Canceled in err then DeadlineExpired
    else PreconditionFailed
  }

  predicate Expired(err: Errors) {
    Deadline in err || Canceled in err
  }

  // The end of node.lifecycleMutation: the durable receipt decides the status.
  function Classify(id: string, receipt: Option<Receipt>, err: Errors, c: Command): Result {
    if HasUnknown(receipt) then
      Result(id, Indeterminate, if err == [] then LifecycleUncertain else ErrorDetail(err), receipt)
    else if Complete(receipt, c) then
      Result(id, Succeeded, if c.body.StopBody? then AgentStopped else AgentStarted, receipt)
    else if HasEffect(receipt) then
      Result(id, Failed, if err == [] then LifecyclePartial else ErrorDetail(err), receipt)
    else if Expired(err) then
      Result(id, TimedOut, DeadlineExpired, receipt)
    else
      Result(id, Rejected, ErrorDetail(err), receipt)
  }

  // state.recoveredLifecycleResult: the same question after a crash, when the error is lost.
  function Recovered(c: Command, receipt: Option<Receipt>): Result {
    if !IsLifecycle(c.body) then
      Result(c.id, Indeterminate, if c.body.SessionBody? then StartupUncertain else NodeRestarted, None)
    else if Complete(receipt, c) then
      Result(c.id, Succeeded, if c.body.StopBody? then AgentStopped else AgentStarted, receipt)
    else if HasUnknown(receipt) then
      Result(c.id, Indeterminate, LifecycleUncertain, receipt)
    else if HasEffect(receipt) then
      Result(c.id, Failed, LifecyclePartial, receipt)
    else
      Result(c.id, Rejected, NodeRestarted, receipt)
  }

  predicate DurableReceipt(receipt: Option<Receipt>, c: Command) {
    receipt.Some? ==> ValidReceipt(receipt.value, c)
  }

  // A complete run leaves nothing uncertain, so the two classifiers may test in either order.
  lemma CompleteIsCertain(receipt: Option<Receipt>, c: Command)
    requires IsLifecycle(c.body) && DurableReceipt(receipt, c) && Complete(receipt, c)
    ensures !HasUnknown(receipt) && HasEffect(receipt)
  {
    StageDependencies(receipt.value, c);
  }

  /** An error whose detail is a session failure with a code outside the lifecycle vocabulary. */
  predicate MisspelledFailure(err: Errors) {
    && UnresolvedTarget !in err && Persistence !in err
    && FirstSessionFailure(err).Some? && !ValidDetail(FirstSessionFailure(err).value)
  }

  predicate SuccessCode(err: Errors) {
    && UnresolvedTarget !in err && Persistence !in err
    && FirstSessionFailure(err).Some? && FirstSessionFailure(err).value in {AgentStarted, AgentStopped}
  }

  /** Classification is total: for every valid durable receipt and every error, the node's result
      passes the protocol's result check, exactly unless the detail is taken from a session failure
      whose code the lifecycle vocabulary lacks (or reserves for success). */
  lemma ClassificationIsValid(receipt: Option<Receipt>, err: Errors, c: Command)
    requires IsLifecycle(c.body) && DurableReceipt(receipt, c)
    ensures ValidResult(Classify(c.id, receipt, err, c), c) <==>
            (|| Complete(receipt, c)
             || (!HasEffect(receipt) && Expired(err))
             || !(MisspelledFailure(err) || SuccessCode(err)))
  {
    hide ValidReceipt, ErrorDetail, MisspelledFailure, SuccessCode;
    ErrorDetailIsValid(err);
    if Complete(receipt, c) {
      CompleteIsCertain(receipt, c);
    } else if HasUnknown(receipt) {
    } else if HasEffect(receipt) {
    } else {
    }
  }

  lemma ErrorDetailIsValid(err: Errors)
    ensures ValidDetail(ErrorDetail(err)) <==> !MisspelledFailure(err)
    ensures ErrorDetail(err) in {AgentStarted, AgentStopped} <==> SuccessCode(err)
    ensures err == [] ==> !MisspelledFailure(err) && !SuccessCode(err)
  {
  }

  /** A live manager reports only codes from this list, so every completion is accepted. */
  predicate KnownSessionCodes(err: Errors) {
    forall i | 0 <= i < |err| :: err[i].SessionFailure? ==>
      ValidSessionError(err[i].code) || err[i].code == AuthorizationChanged
  }

  lemma {:induction false} FirstFailureIsKnown(err: Errors)
    requires KnownSessionCodes(err)
    ensures FirstSessionFailure(err).Some? ==>
              || ValidSessionError(FirstSessionFailure(err).value)
              || FirstSessionFailure(err).value == AuthorizationChanged
  {
    if err != [] && !err[0].SessionFailure? {
      forall i | 0 <= i < |err| - 1 ensures err[1..][i] == err[i + 1] {}
      FirstFailureIsKnown(err[1..]);
    }
  }

  /** A lifecycle command with a durable receipt never fails as an invalid completion: its result
      passes both checks made before it is stored and delivered. */
  lemma CompletionIsAccepted(receipt: Receipt, err: Errors, c: Command)
    requires IsLifecycle(c.body) && ValidReceipt(receipt, c) && KnownSessionCodes(err)
    ensures ValidResult(Classify(c.id, Some(receipt), err, c), c)
    ensures DeliverableResult(Classify(c.id, Some(receipt), err, c))
  {
    FirstFailureIsKnown(err);
    ClassificationIsValid(Some(receipt), err, c);
  }

  /** Session startup uncertainty is not part of the lifecycle vocabulary: were a session manager
      to report it from a status check, the node's own result would be refused. */
  lemma StartupUncertaintyIsRefused(c: Command)
    requires IsLifecycle(c.body)
    ensures !ValidResult(Classify(c.id, None, [SessionFailure(StartupUncertain)], c), c)
  {
    var err := [SessionFailure(StartupUncertain)];
    assert FirstSessionFailure(err) == Some(StartupUncertain);
    ClassificationIsValid(None, err, c);
  }

  /** Recovery never stores an invalid result, with or without a checkpoint. */
  lemma RecoveryIsAccepted(c: Command, receipt: Option<Receipt>)
    requires IsLifecycle(c.body) && DurableReceipt(receipt, c)
    ensures ValidResult(Recovered(c, receipt), c) && DeliverableResult(Recovered(c, receipt))
  {
    if Complete(receipt, c) { CompleteIsCertain(receipt, c); }
    if receipt.Some? { StageDependencies(receipt.value, c); }
  }

  /** A crash before completion reports the same evidence as an undisturbed finish would: the
      status only differs where nothing was attempted and the live run saw its deadline pass. */
  lemma RecoveryAgreesWithCompletion(c: Command, receipt: Option<Receipt>, err: Errors)
    requires IsLifecycle(c.body) && DurableReceipt(receipt, c)
    ensures var live, later := Classify(c.id, receipt, err, c), Recovered(c, receipt);
            || live.status == later.status
            || (live.status == TimedOut && later.status == Rejected && !HasEffect(receipt) && Expired(err))
  {
    if Complete(receipt, c) { CompleteIsCertain(receipt, c); }
  }

  // Denying an effect means no stage has one on record.
  lemma DenialMeansNothingAttempted(result: Result, c: Command)
    requires ValidResult(result, c) && result.status in {Rejected, TimedOut}
    ensures result.receipt.Some? ==>
              forall s: Stage :: !s.OtherStage? ==> StageOutcome(result.receipt.value, s) == NotAttempted
  {
  }
}
