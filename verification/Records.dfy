/** How the coordinator's record of one command changes: dispatch, progress, completion, loss,
    expiry and restart.
 */
module Records {
  import opened Messages
  import opened Receipts
  import opened Outcomes
  import opened Histories
  import opened Requests
  import opened Coordinator

  // validCommandTransition
  predicate ValidTransition(b: Body, from: Status, to: Status, detail: Detail) {
    || (IsLifecycle(b) && from in {Running, Indeterminate} && to in {Failed, Indeterminate})
    || match from
       case Accepted =>
         || to in {Running, TimedOut, Unavailable}
         || (!b.ProbeBody? && to == Rejected && detail == AuthorizationChanged)
       case Running => to in {Succeeded, TimedOut, Rejected, Indeterminate}
       case Indeterminate =>
         || to in {Succeeded, TimedOut, Rejected}
         || (b.SessionBody? && to == Indeterminate && detail == StartupUncertain)
       case _ => false
  }

  // validCommandOutcome for lifecycle commands; the vocabularies of other types are not modelled.
  predicate ValidOutcome(b: Body, status: Status, detail: Detail) {
    IsLifecycle(b) && Terminal(status) ==> ValidDetail(detail)
  }

  // transitionCommand, with the record check it ends in
  function Transition(r: Record, status: Status, detail: Detail): Option<Record> {
    var next := r.(status := status, detail := detail);
    if !ValidTransition(r.command.body, r.status, status, detail) then None
    else if !ValidOutcome(r.command.body, status, detail) then None
    else if IsLifecycle(r.command.body) && Terminal(status) && !status.Unavailable?
      && !ValidResult(RecordResult(next), r.command)
    then None
    else Some(next)
  }

  const Dispatched := OtherDetail("dispatched")

  // Store.DispatchCommand: whether the command may be sent now.
  function Dispatch(r: Record, now: int): Option<(Record, bool)> {
    if !r.status.Accepted? then Some((r, false))
    else if now >= r.command.expiresAt then
      match Transition(r, TimedOut, DeadlineExpired)
      case None => None
      case Some(next) => Some((next, false))
    else
      match Transition(r, Running, Dispatched)
      case None => None
      case Some(next) => Some((next, true))
  }

  // Store.RejectCommand
  function Reject(r: Record): Option<Record> {
    if r.command.body.ProbeBody? then None
    else if !r.status.Accepted? then Some(r)
    else Transition(r, Rejected, AuthorizationChanged)
  }

  // changeActiveCommands for one record
  function Abandon(r: Record, accepted: Status, detail: Detail): Option<Record> {
    if r.status.Accepted? then Transition(r, accepted, detail)
    else if r.status.Running? then Transition(r, Indeterminate, detail)
    else Some(r)
  }

  function Expire(r: Record, now: int): Option<Record> {
    var execution := if r.command.executionExpiresAt.Some? then r.command.executionExpiresAt.value
                     else r.command.expiresAt;
    if now < r.command.expiresAt || (r.status.Running? && now < execution) then Some(r)
    else Abandon(r, TimedOut, DeadlineExpired)
  }

  // finishLifecycleRecord
  function FinishLifecycle(r: Record, result: Result): Option<Record> {
    if RecordResult(r) == result then Some(r)
    else if r.status !in {Running, Indeterminate} then None
    else if result.receipt.Some? && !Advance(r.receipt, result.receipt.value, r.command) then None
    else if result.receipt.None? && r.receipt.Some? then None
    else
      var next := r.(receipt := result.receipt);
      if r.status != result.status || r.detail != result.detail then Transition(next, result.status, result.detail)
      else if ValidResult(RecordResult(next), r.command) then Some(next) else None
  }

  // Store.FinishCommand
  function Finish(r: Record, result: Result): Option<Record> {
    if result.id != r.command.id then None
    else if IsLifecycle(r.command.body) then
      (if ValidResult(result, r.command) then FinishLifecycle(r, result) else None)
    else if result.receipt.Some? || !Terminal(result.status) then None
    else if result.status == Indeterminate && Terminal(r.status)
         && !(&& r.command.body.SessionBody? && r.status == Indeterminate
              && r.detail == NodeDisconnected && result.detail == StartupUncertain)
    then Some(r)
    else if RecordResult(r) == result then Some(r)
    else if r.status !in {Running, Indeterminate} then None
    else Transition(r, result.status, result.detail)
  }

  datatype Op =
    | DispatchOp(now: int) | RejectOp | LoseOp | ExpireOp(now: int) | RestartOp
    | FinishOp(result: Result) | ProgressOp(receipt: Receipt)

  function Attempt(r: Record, op: Op): Option<Record> {
    match op
    case DispatchOp(now) => (match Dispatch(r, now) case None => None case Some(p) => Some(p.0))
    case RejectOp => Reject(r)
    case LoseOp => Abandon(r, Unavailable, NodeDisconnected)
    case ExpireOp(now) => Expire(r, now)
    case RestartOp => Abandon(r, Unavailable, ServerRestarted)
    case FinishOp(result) => Finish(r, result)
    case ProgressOp(receipt) => if IsLifecycle(r.command.body) then SaveProgress(r, receipt) else None
  }

  // A refused change leaves the record as it was.
  function Step(r: Record, op: Op): Record {
    match Attempt(r, op) case None => r case Some(next) => next
  }

  // Outcomes that nothing revises.
  predicate Settled(s: Status) {
    s in {Succeeded, Failed, TimedOut, Rejected, Unavailable}
  }

  predicate RecordGrows(a: Record, b: Record) {
    && b.command == a.command
    && (!a.status.Accepted? ==> !b.status.Accepted?)
    && (Settled(a.status) ==> b == a)
    && (a.receipt.Some? ==> b.receipt.Some? && Extends(a.receipt.value, b.receipt.value))
  }

  lemma TransitionKeepsRecord(id: string, r: Record, status: Status, detail: Detail)
    requires ValidRecord(id, r) && Transition(r, status, detail).Some?
    ensures ValidRecord(id, Transition(r, status, detail).value) && RecordGrows(r, Transition(r, status, detail).value)
  {
    hide ValidCommand, ValidResult, ValidReceipt;
    if r.receipt.Some? { ExtendsReflexive(r.receipt.value); }
  }

  lemma FinishKeepsRecord(id: string, r: Record, result: Result)
    requires ValidRecord(id, r) && Finish(r, result).Some?
    ensures ValidRecord(id, Finish(r, result).value) && RecordGrows(r, Finish(r, result).value)
  {
    hide ValidCommand, ValidReceipt, ValidOutcome, Extends, ValidResult;
    if r.receipt.Some? { ExtendsReflexive(r.receipt.value); }
  }

  lemma ProgressKeepsRecord(id: string, r: Record, p: Receipt)
    requires ValidRecord(id, r) && IsLifecycle(r.command.body) && SaveProgress(r, p).Some?
    ensures ValidRecord(id, SaveProgress(r, p).value) && RecordGrows(r, SaveProgress(r, p).value)
  {
    hide ValidCommand, ValidReceipt, Extends;
    if r.receipt.Some? { ExtendsReflexive(r.receipt.value); }
  }

  /** Every change keeps the record valid: nothing returns to accepted, settled outcomes are never
      revised, and the stored receipt only advances. */
  lemma StepKeepsRecord(id: string, r: Record, op: Op)
    requires ValidRecord(id, r)
    ensures ValidRecord(id, Step(r, op)) && RecordGrows(r, Step(r, op))
  {
    hide ValidCommand, ValidReceipt, ValidResult, Extends, ValidRecord, Transition, Finish, SaveProgress;
    if r.receipt.Some? { ExtendsReflexive(r.receipt.value); }
    match op {
      case DispatchOp(now) => TransitionsKeepRecord(id, r);
      case FinishOp(result) => if Finish(r, result).Some? { FinishKeepsRecord(id, r, result); }
      case ProgressOp(p) =>
        if IsLifecycle(r.command.body) && SaveProgress(r, p).Some? { ProgressKeepsRecord(id, r, p); }
      case _ => TransitionsKeepRecord(id, r);
    }
  }

  lemma TransitionsKeepRecord(id: string, r: Record)
    requires ValidRecord(id, r)
    ensures forall s, d {:trigger Transition(r, s, d)} | Transition(r, s, d).Some? ::
              ValidRecord(id, Transition(r, s, d).value) && RecordGrows(r, Transition(r, s, d).value)
  {
    forall s, d | Transition(r, s, d).Some?
      ensures ValidRecord(id, Transition(r, s, d).value) && RecordGrows(r, Transition(r, s, d).value)
    {
      TransitionKeepsRecord(id, r, s, d);
    }
  }

  /** The coordinator is never stuck on its own records: dispatch, loss, expiry and restart always
      succeed, whatever progress has been stored. */
  lemma MaintenanceAlwaysSucceeds(id: string, r: Record, op: Op)
    requires op.DispatchOp? || op.LoseOp? || op.ExpireOp? || op.RestartOp?
    requires ValidRecord(id, r)
    ensures Attempt(r, op).Some?
  {
    hide ValidCommand, ReceiptSize, StageHistory, Summarizes, Evidence, HandleOf;
  }

  /** A node's result is always accepted while the outcome is open: any result that passes the
      result check and continues the stored receipt becomes the record's outcome. */
  lemma OpenRecordsAcceptResults(id: string, r: Record, result: Result)
    requires ValidRecord(id, r) && IsLifecycle(r.command.body) && r.status in {Running, Indeterminate}
    requires ValidResult(result, r.command)
    requires if result.receipt.Some? then Advance(r.receipt, result.receipt.value, r.command) else r.receipt.None?
    ensures Finish(r, result).Some? && RecordResult(Finish(r, result).value) == result
    ensures Finish(r, result).value.command == r.command
  {
    hide ValidCommand, ValidReceipt, HasUnknown, HasEffect, Complete;
  }

  /******* The audit *******/

  // The admission and every change of outcome after it.
  type Audit = seq<(Status, Detail)>

  datatype Audited = Audited(record: Record, audit: Audit)

  const AuditCapacity: nat := 16

  // The part of validateCommandRecord that concerns the audit.
  predicate ValidAudit(a: Audited) {
    && 0 < |a.audit| <= AuditCapacity
    && a.audit[0].0.Accepted?
    && (forall i | 0 <= i < |a.audit| :: ValidOutcome(a.record.command.body, a.audit[i].0, a.audit[i].1))
    && (forall i | 0 < i < |a.audit| ::
          ValidTransition(a.record.command.body, a.audit[i - 1].0, a.audit[i].0, a.audit[i].1))
    && a.audit[|a.audit| - 1] == (a.record.status, a.record.detail)
  }

  // The outcome is another one, which transitionCommand has to enter in the audit.
  predicate Revises(r: Record, next: Record) {
    next.status != r.status || next.detail != r.detail
  }

  // One change of the record: refused as a whole when it has to be entered in a full audit.
  function Entered(a: Audited, next: Record): Audited {
    if !Revises(a.record, next) then a.(record := next)
    else if |a.audit| >= AuditCapacity then a
    else Audited(next, a.audit + [(next.status, next.detail)])
  }

  function Noted(a: Audited, op: Op): Audited {
    Entered(a, Step(a.record, op))
  }

  function NotedAll(a: Audited, ops: seq<Op>): Audited
    decreases |ops|
  {
    if ops == [] then a else NotedAll(Noted(a, ops[0]), ops[1..])
  }

  function StepAll(r: Record, ops: seq<Op>): Record
    decreases |ops|
  {
    if ops == [] then r else StepAll(Step(r, ops[0]), ops[1..])
  }

  // How often the outcome changes.
  function Changes(r: Record, ops: seq<Op>): nat
    decreases |ops|
  {
    if ops == [] then 0
    else (if Revises(r, Step(r, ops[0])) then 1 else 0) + Changes(Step(r, ops[0]), ops[1..])
  }

  // No change meets a full audit.
  predicate NothingRefused(a: Audited, ops: seq<Op>)
    decreases |ops|
  {
    ops != [] ==>
      && (Revises(a.record, Step(a.record, ops[0])) ==> |a.audit| < AuditCapacity)
      && NothingRefused(Noted(a, ops[0]), ops[1..])
  }

  /** The capacity is exact: nothing is refused if and only if the changes that are asked for fit into
      what is left of the audit, and then the record is the one without any audit. */
  lemma {:induction false} CapacityIsExact(a: Audited, ops: seq<Op>)
    requires |a.audit| <= AuditCapacity
    ensures NothingRefused(a, ops) <==> |a.audit| + Changes(a.record, ops) <= AuditCapacity
    ensures NothingRefused(a, ops) ==>
              && NotedAll(a, ops).record == StepAll(a.record, ops)
              && |NotedAll(a, ops).audit| == |a.audit| + Changes(a.record, ops)
    decreases |ops|
  {
    hide Step;
    if ops != [] { CapacityIsExact(Noted(a, ops[0]), ops[1..]); }
  }

  // How often the outcome can still change when the node reports this result, or none so far.
  function ChangesLeft(r: Record, result: Option<Result>): nat {
    match r.status
    case Accepted => 3
    case Running => 2
    case Indeterminate =>
      if result.Some? && r.detail == result.value.detail && result.value.status.Indeterminate? then 0 else 1
    case _ => 0
  }

  // A change of outcome is one of the allowed transitions, and there is one fewer to come.
  lemma ChangesAreTransitions(id: string, r: Record, op: Op, result: Option<Result>)
    requires ValidRecord(id, r) && (op.FinishOp? ==> result == Some(op.result))
    ensures var next := Step(r, op);
            (!Revises(r, next) && ChangesLeft(next, result) == ChangesLeft(r, result))
            || (&& ValidTransition(r.command.body, r.status, next.status, next.detail)
                && ValidOutcome(r.command.body, next.status, next.detail)
                && ChangesLeft(next, result) < ChangesLeft(r, result))
  {
    hide ValidCommand, ValidReceipt, ValidResult, Extends;
  }

  // Every entry is an allowed transition, whatever is reported.
  lemma NotedKeepsAudit(id: string, a: Audited, op: Op)
    requires ValidRecord(id, a.record) && ValidAudit(a)
    ensures ValidRecord(id, Noted(a, op).record) && ValidAudit(Noted(a, op))
  {
    hide ValidRecord, ValidTransition, ValidOutcome, Step, RecordGrows, ChangesLeft;
    StepKeepsRecord(id, a.record, op);
    ChangesAreTransitions(id, a.record, op, if op.FinishOp? then Some(op.result) else None);
    SameCommand(a.record, Step(a.record, op));
  }

  lemma SameCommand(a: Record, b: Record)
    requires RecordGrows(a, b)
    ensures b.command == a.command
  {
  }

  /** The audit always explains the record: it begins with the admission, goes on by allowed
      transitions, stays within its capacity and ends with the record's outcome. */
  lemma {:induction false} AuditExplainsRecord(id: string, a: Audited, ops: seq<Op>)
    requires ValidRecord(id, a.record) && ValidAudit(a)
    ensures ValidRecord(id, NotedAll(a, ops).record) && ValidAudit(NotedAll(a, ops))
    decreases |ops|
  {
    hide ValidRecord, ValidAudit, Noted;
    if ops != [] {
      NotedKeepsAudit(id, a, ops[0]);
      AuditExplainsRecord(id, Noted(a, ops[0]), ops[1..]);
    }
  }

  // The node reports one result for the command, however often.
  predicate OneResult(ops: seq<Op>, result: Result) {
    forall i | 0 <= i < |ops| && ops[i].FinishOp? :: ops[i].result == result
  }

  lemma {:induction false} OneResultMeansFewChanges(id: string, r: Record, ops: seq<Op>, result: Result)
    requires ValidRecord(id, r) && OneResult(ops, result)
    ensures Changes(r, ops) <= ChangesLeft(r, Some(result)) <= 3
    decreases |ops|
  {
    hide ValidRecord, Step;
    if ops != [] {
      assert ops[0].FinishOp? ==> ops[0].result == result;
      assert OneResult(ops[1..], result) by {
        forall i | 0 <= i < |ops[1..]| && ops[1..][i].FinishOp? ensures ops[1..][i].result == result {
          assert ops[1..][i] == ops[i + 1];
        }
      }
      StepKeepsRecord(id, r, ops[0]);
      ChangesAreTransitions(id, r, ops[0], Some(result));
      OneResultMeansFewChanges(id, Step(r, ops[0]), ops[1..], result);
    }
  }

  /** The capacity does not stand in the way of a node that reports one result for a command: the
      outcome changes at most three times after the admission, and none of the changes is refused. */
  lemma AuditNeverFills(id: string, a: Audited, ops: seq<Op>, result: Result)
    requires ValidRecord(id, a.record) && ValidAudit(a) && OneResult(ops, result)
    requires |a.audit| + ChangesLeft(a.record, Some(result)) <= AuditCapacity
    ensures NothingRefused(a, ops) && NotedAll(a, ops).record == StepAll(a.record, ops)
    ensures ValidAudit(NotedAll(a, ops))
    ensures |NotedAll(a, ops).audit| <= |a.audit| + ChangesLeft(a.record, Some(result))
    ensures a.record.status.Accepted? && |a.audit| == 1 ==> |NotedAll(a, ops).audit| <= 4
  {
    hide ValidRecord, ValidTransition, ValidOutcome, NothingRefused, NotedAll, StepAll, Changes;
    OneResultMeansFewChanges(id, a.record, ops, result);
    CapacityIsExact(a, ops);
    AuditExplainsRecord(id, a, ops);
  }

  /** A node's result is accepted while the outcome is open exactly if it is the outcome already or
      there is room for it in the audit. */
  lemma OpenAuditsAcceptResults(id: string, a: Audited, result: Result)
    requires ValidRecord(id, a.record) && IsLifecycle(a.record.command.body)
    requires a.record.status in {Running, Indeterminate} && ValidResult(result, a.record.command)
    requires if result.receipt.Some? then Advance(a.record.receipt, result.receipt.value, a.record.command)
             else a.record.receipt.None?
    ensures RecordResult(Noted(a, FinishOp(result)).record) == result <==>
            || RecordResult(a.record) == result
            || (a.record.status == result.status && a.record.detail == result.detail)
            || |a.audit| < AuditCapacity
  {
    hide ValidCommand, ValidReceipt, HasUnknown, HasEffect, Complete, ValidRecord, Finish;
    OpenRecordsAcceptResults(id, a.record, result);
  }

  // Only a node that contradicts itself fills the audit: two results in turn use one entry each.
  function Alternating(x: Result, y: Result, n: nat): seq<Op>
    decreases n
  {
    if n == 0 then [] else [FinishOp(x)] + Alternating(y, x, n - 1)
  }

  /** With two results reported in turn the audit does fill up, and then stays as it is. */
  lemma {:induction false} ContradictionFillsTheAudit(a: Audited, x: Result, y: Result, n: nat)
    requires IsLifecycle(a.record.command.body) && a.record.receipt.None? && a.record.status.Indeterminate?
    requires a.record.detail == y.detail && |a.audit| <= AuditCapacity
    requires ValidResult(x, a.record.command) && ValidResult(y, a.record.command) && x.detail != y.detail
    requires x.status.Indeterminate? && y.status.Indeterminate? && x.receipt.None? && y.receipt.None?
    ensures |NotedAll(a, Alternating(x, y, n)).audit|
            == if |a.audit| + n <= AuditCapacity then |a.audit| + n else AuditCapacity
    decreases n
  {
    if n > 0 {
      var ops := Alternating(x, y, n);
      assert ops[0] == FinishOp(x) && ops[1..] == Alternating(y, x, n - 1);
      assert Finish(a.record, x) == Some(a.record.(status := Indeterminate, detail := x.detail)) by {
        hide ValidReceipt;
      }
      if |a.audit| < AuditCapacity {
        ContradictionFillsTheAudit(Noted(a, FinishOp(x)), y, x, n - 1);
      } else {
        FullAuditStays(a, ops[1..]);
      }
    }
  }

  // Every report of two contradicting results is a change.
  lemma {:induction false} AlternationChanges(r: Record, x: Result, y: Result, n: nat)
    requires IsLifecycle(r.command.body) && r.receipt.None? && r.status.Indeterminate? && r.detail == y.detail
    requires ValidResult(x, r.command) && ValidResult(y, r.command) && x.detail != y.detail
    requires x.status.Indeterminate? && y.status.Indeterminate? && x.receipt.None? && y.receipt.None?
    ensures Changes(r, Alternating(x, y, n)) == n
    decreases n
  {
    if n > 0 {
      var ops := Alternating(x, y, n);
      assert ops[0] == FinishOp(x) && ops[1..] == Alternating(y, x, n - 1);
      assert Finish(r, x) == Some(r.(status := Indeterminate, detail := x.detail)) by {
        hide ValidReceipt;
      }
      AlternationChanges(r.(detail := x.detail), y, x, n - 1);
    }
  }

  // A command as it was admitted.
  function Admitted(c: Command): Audited {
    Audited(Record(c, Accepted, OtherDetail("accepted"), None), [(Accepted, OtherDetail("accepted"))])
  }

  // It is dispatched in time, the node is lost, and two contradicting results arrive in turn.
  function Contradiction(c: Command, n: nat): seq<Op> {
    [DispatchOp(c.expiresAt - 1), LoseOp]
    + Alternating(Result(c.id, Indeterminate, ServerRestarted, None),
                  Result(c.id, Indeterminate, NodeDisconnected, None), n)
  }

  /** A run that is refused: for every valid lifecycle command, two results reported in turn fill the
      audit after the thirteenth report, and the fourteenth is refused. */
  lemma ContradictionIsRefused(c: Command, n: nat)
    requires ValidCommand(c, c.target) && IsLifecycle(c.body)
    ensures ValidRecord(c.id, Admitted(c).record) && ValidAudit(Admitted(c))
    ensures NothingRefused(Admitted(c), Contradiction(c, n)) <==> n <= 13
    ensures |NotedAll(Admitted(c), Contradiction(c, n)).audit| == if n <= 13 then 3 + n else AuditCapacity
  {
    hide ValidCommand, Alternating, ValidReceipt;
    var a, ops := Admitted(c), Contradiction(c, n);
    var x, y := Result(c.id, Indeterminate, ServerRestarted, None), Result(c.id, Indeterminate, NodeDisconnected, None);
    assert ops[1..][0] == LoseOp && ops[1..][1..] == Alternating(x, y, n);
    var running := Step(a.record, ops[0]);
    assert running == Record(c, Running, Dispatched, None);
    var lost := Step(running, LoseOp);
    assert lost == Record(c, Indeterminate, NodeDisconnected, None);
    AlternationChanges(lost, x, y, n);
    ContradictionFillsTheAudit(Noted(Noted(a, ops[0]), LoseOp), x, y, n);
    assert Changes(running, ops[1..]) == 1 + n;
    CapacityIsExact(a, ops);
  }

  // Nothing is recorded in a full audit.
  lemma {:induction false} FullAuditStays(a: Audited, ops: seq<Op>)
    requires |a.audit| == AuditCapacity
    ensures NotedAll(a, ops).audit == a.audit
    decreases |ops|
  {
    hide Step;
    if ops != [] { FullAuditStays(Noted(a, ops[0]), ops[1..]); }
  }
}
