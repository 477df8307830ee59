/** Results of agent control commands: which of the node's outcomes its own result check accepts.
 */
module Control {
  import opened Messages
  import opened Outcomes
  import F = Failures

  const OutcomeUnknown := OtherDetail("herdr_outcome_unknown")

  // ValidateAgentControlResult for a result without a payload
  predicate AcceptedControl(status: Status, detail: Detail) {
    match status
    case Rejected =>
      || ValidSessionError(detail)
      || detail in {JournalFull, PreconditionFailed, AgentBusy, AgentBlocked, TargetChanged, HerdrUnavailable,
                    Unsupported, AuthorizationChanged, LifecycleUnresolved}
    case TimedOut => detail == DeadlineExpired
    case Indeterminate => detail == NodeRestarted || detail == OutcomeUnknown
    case _ => false
  }

  // The end of agentMutation after the native call failed
  function ControlFailure(err: Errors): (Status, Detail) {
    if IndeterminateEffect in err then (Indeterminate, OutcomeUnknown)
    else if UnresolvedTarget in err then (Rejected, LifecycleUnresolved)
    else if FirstSessionFailure(err).Some? then (Rejected, FirstSessionFailure(err).value)
    else if Deadline in err then (TimedOut, DeadlineExpired)
    else if Precondition in err then (Rejected, PreconditionFailed)
    else if BusyAgent in err then (Rejected, AgentBusy)
    else if BlockedAgent in err then (Rejected, AgentBlocked)
    else if ChangedTarget in err then (Rejected, TargetChanged)
    else if UnavailableAgent in err then (Rejected, HerdrUnavailable)
    else if UnsupportedOperation in err then (Rejected, Unsupported)
    else (Indeterminate, OutcomeUnknown)
  }

  // The check of the pinned session and its fence, before anything is sent
  function PinFailure(err: Errors): (Status, Detail) {
    (Rejected, ErrorDetail(err))
  }

  /** Whatever the native call ends in, the result is accepted, and an effect is only denied when the
      adapter did not report it as indeterminate. */
  lemma ControlFailuresAreAccepted(err: Errors)
    requires KnownSessionCodes(err)
    ensures AcceptedControl(ControlFailure(err).0, ControlFailure(err).1)
    ensures ControlFailure(err).0 in {Rejected, TimedOut} ==> IndeterminateEffect !in err
  {
    FirstFailureIsKnown(err);
  }

  // What decides a failed native call, the first of these that came with it.
  function Rank(s: Sentinel): nat {
    match s
    case IndeterminateEffect => 0
    case UnresolvedTarget => 1
    case SessionFailure(_) => 2
    case Deadline => 3
    case Precondition => 4
    case BusyAgent => 5
    case BlockedAgent => 6
    case ChangedTarget => 7
    case UnavailableAgent => 8
    case UnsupportedOperation => 9
    case _ => 10
  }

  // What it is reported as; anything unclassified may have had its effect.
  function Reported(s: Sentinel): (Status, Detail) {
    match s
    case UnresolvedTarget => (Rejected, LifecycleUnresolved)
    case SessionFailure(code) => (Rejected, code)
    case Deadline => (TimedOut, DeadlineExpired)
    case Precondition => (Rejected, PreconditionFailed)
    case BusyAgent => (Rejected, AgentBusy)
    case BlockedAgent => (Rejected, AgentBlocked)
    case ChangedTarget => (Rejected, TargetChanged)
    case UnavailableAgent => (Rejected, HerdrUnavailable)
    case UnsupportedOperation => (Rejected, Unsupported)
    case _ => (Indeterminate, OutcomeUnknown)
  }

  /** A failed native call is reported as the first of its most telling failures, in an order other
      than that of a lifecycle run. */
  lemma MostTellingFailure(err: Errors, i: nat)
    requires i < |err| && (forall j | 0 <= j < |err| :: Rank(err[i]) <= Rank(err[j]))
    requires forall j | 0 <= j < i :: Rank(err[i]) < Rank(err[j])
    ensures ControlFailure(err) == Reported(err[i])
  {
    hide FirstSessionFailure;
    if err[i].SessionFailure? {
      F.FirstSessionFailureIsFirst(err, i);
    } else if Rank(err[i]) > 2 {
      F.NoSessionFailure(err);
    }
    assert err[i] in err;
  }

  // The deadline or a cancellation is all that the pin check reports.
  predicate OnlyExpired(err: Errors) {
    && (Deadline in err || Canceled in err)
    && UnresolvedTarget !in err && FirstSessionFailure(err).None?
    && BlockedAgent !in err && BusyAgent !in err && ChangedTarget !in err && UnsupportedOperation !in err
    && UnavailableAgent !in err
  }

  /** The one gap: a failure of the pin check is accepted exactly unless nothing but the deadline
      (or a cancellation) is reported, because that becomes a rejection with the detail of a timeout. */
  lemma PinFailuresAreAccepted(err: Errors)
    requires KnownSessionCodes(err) && Persistence !in err
    ensures AcceptedControl(PinFailure(err).0, PinFailure(err).1) <==> !OnlyExpired(err)
  {
    FirstFailureIsKnown(err);
  }

  /** It is met: a deadline and nothing else makes a result that is refused. */
  lemma DeadlineIsRefused()
    ensures KnownSessionCodes([Deadline])
    ensures PinFailure([Deadline]) == (Rejected, DeadlineExpired)
    ensures !AcceptedControl(PinFailure([Deadline]).0, PinFailure([Deadline]).1)
  {
    assert FirstSessionFailure([Deadline]).None?;
    PinFailuresAreAccepted([Deadline]);
  }

  /** The lifecycle path has no such gap: the same error with nothing attempted is a timeout, and it
      passes the lifecycle result check. */
  lemma LifecycleHasNoSuchGap(err: Errors, c: Command)
    requires OnlyExpired(err) && IsLifecycle(c.body)
    ensures Classify(c.id, None, err, c).status == TimedOut && ValidResult(Classify(c.id, None, err, c), c)
  {
  }
}
