/** When the coordinator sends a command to its node, and what its record says about that afterwards. */
module Sending {
  import opened Messages
  import opened Receipts
  import opened Outcomes
  import opened Histories
  import opened Requests
  import opened Coordinator
  import opened Records

  // Dispatched by this change: the times at which it is sent.
  function Sends(r: Record, op: Op): seq<int> {
    if op.DispatchOp? && Dispatch(r, op.now).Some? && Dispatch(r, op.now).value.1 then [op.now] else []
  }

  function AllSends(r: Record, ops: seq<Op>): seq<int>
    decreases |ops|
  {
    if ops == [] then [] else Sends(r, ops[0]) + AllSends(Step(r, ops[0]), ops[1..])
  }

  predicate NothingReported(ops: seq<Op>) {
    forall i | 0 <= i < |ops| :: !ops[i].FinishOp?
  }

  /** Dispatch is exact: a command is sent if and only if its record is still accepted and it has not
      expired, and is then recorded as running; one that expired waiting is timed out and not sent,
      and any other record is left alone. */
  lemma DispatchIsTimely(id: string, r: Record, now: int)
    requires ValidRecord(id, r)
    ensures Dispatch(r, now).Some?
    ensures var (next, sent) := Dispatch(r, now).value;
            && (sent <==> r.status == Accepted && now < r.command.expiresAt)
            && (sent ==> next.status == Running && next.detail == OtherDetail("dispatched"))
            && (r.status == Accepted && r.command.expiresAt <= now ==>
                  next.status == TimedOut && next.detail == DeadlineExpired)
            && (r.status != Accepted ==> next == r)
            && next.command == r.command && next.receipt == r.receipt
  {
    hide ValidCommand, ReceiptSize, StageHistory, Summarizes, Evidence, HandleOf;
    MaintenanceAlwaysSucceeds(id, r, DispatchOp(now));
  }

  /** Loss and restart are exact: what was not sent will not be, what was sent may have had its effect,
      and nothing else is touched. */
  lemma LossIsUncertain(id: string, r: Record, op: Op)
    requires ValidRecord(id, r) && (op.LoseOp? || op.RestartOp?)
    ensures Attempt(r, op).Some?
    ensures var next, why := Step(r, op), if op.LoseOp? then NodeDisconnected else ServerRestarted;
            next == if r.status == Accepted then r.(status := Unavailable, detail := why)
                    else if r.status == Running then r.(status := Indeterminate, detail := why)
                    else r
  {
    hide ValidCommand, ReceiptSize, StageHistory, Summarizes, Evidence, HandleOf;
    MaintenanceAlwaysSucceeds(id, r, op);
  }

  /** Expiry is exact: a command that waited past its time is timed out, one that was sent is given
      its execution time too and is uncertain after it, and nothing else is touched.  A running start
      has its startup time and the allowance on top. */
  lemma ExpiryIsTimely(id: string, r: Record, now: int)
    requires ValidRecord(id, r)
    ensures Attempt(r, ExpireOp(now)).Some?
    ensures var next, c := Step(r, ExpireOp(now)), r.command;
            next == if r.status == Accepted && c.expiresAt <= now
                    then r.(status := TimedOut, detail := DeadlineExpired)
                    else if r.status == Running && c.expiresAt <= now
                      && (c.executionExpiresAt.Some? ==> c.executionExpiresAt.value <= now)
                    then r.(status := Indeterminate, detail := DeadlineExpired)
                    else r
    ensures r.status == Running && r.command.body.StartBody?
            && now < r.command.expiresAt + r.command.body.start.startupTimeoutMs * 1_000_000 + SetupAllowance ==>
              Step(r, ExpireOp(now)) == r
  {
    hide ReceiptSize, StageHistory, Summarizes, Evidence, HandleOf;
    MaintenanceAlwaysSucceeds(id, r, ExpireOp(now));
  }

  // What one change makes of a record that was never sent.
  lemma AcceptedStep(id: string, r: Record, op: Op)
    requires ValidRecord(id, r) && r.status == Accepted
    ensures var next := Step(r, op);
            if Sends(r, op) == [] then next == r || next.status in {TimedOut, Unavailable, Rejected}
            else next.status == Running && |Sends(r, op)| == 1 && Sends(r, op)[0] < r.command.expiresAt
  {
    hide ValidCommand, ValidReceipt, ValidResult, Extends;
    if op.DispatchOp? { DispatchIsTimely(id, r, op.now); }
  }

  // What one change makes of a record that is no longer accepted.
  lemma LaterStep(r: Record, op: Op)
    requires r.status != Accepted
    ensures Sends(r, op) == [] && Step(r, op).status !in {Accepted} && Step(r, op).command == r.command
    ensures r.status in {Succeeded, Failed, TimedOut, Rejected, Unavailable} ==> Step(r, op).status == r.status
    ensures r.status in {Running, Indeterminate} ==> Step(r, op).status != Unavailable
    ensures r.status in {Running, Indeterminate} && !op.FinishOp? ==> Step(r, op).status in {Running, Indeterminate}
  {
    hide ValidCommand, ValidReceipt, ValidResult, Extends;
  }

  // Nothing is sent any more, and the record goes on saying whether something was.
  lemma {:induction false} LaterRun(r: Record, ops: seq<Op>)
    requires r.status != Accepted
    ensures AllSends(r, ops) == [] && StepAll(r, ops).status != Accepted
    ensures r.status in {Succeeded, Failed, TimedOut, Rejected, Unavailable} ==> StepAll(r, ops).status == r.status
    ensures r.status in {Running, Indeterminate} ==> StepAll(r, ops).status != Unavailable
    ensures r.status in {Running, Indeterminate} && NothingReported(ops) ==>
              StepAll(r, ops).status in {Running, Indeterminate}
    decreases |ops|
  {
    hide Step, Sends;
    if ops != [] {
      LaterStep(r, ops[0]);
      assert forall i | 0 <= i < |ops| - 1 :: ops[1..][i] == ops[i + 1];
      LaterRun(Step(r, ops[0]), ops[1..]);
    }
  }

  /** Over every run of changes an admitted command is sent at most once, and only before it expires.
      A record that ends accepted or unavailable was never sent, one that ends running, succeeded,
      failed or indeterminate was; and as long as the node reports nothing, the record says exactly
      whether it was sent, so no uncertainty is ever recorded as a refusal. */
  lemma {:induction false} SentOnceInTime(id: string, r: Record, ops: seq<Op>)
    requires ValidRecord(id, r) && r.status == Accepted
    ensures |AllSends(r, ops)| <= 1 && forall t | t in AllSends(r, ops) :: t < r.command.expiresAt
    ensures var end := StepAll(r, ops).status;
            && (end in {Accepted, Unavailable} ==> AllSends(r, ops) == [])
            && (end in {Running, Indeterminate, Succeeded, Failed} ==> |AllSends(r, ops)| == 1)
            && (NothingReported(ops) ==> (AllSends(r, ops) == [] <==> end !in {Running, Indeterminate}))
    decreases |ops|
  {
    hide Step, Sends, ValidRecord;
    if ops != [] {
      AcceptedStep(id, r, ops[0]);
      assert forall i | 0 <= i < |ops| - 1 :: ops[1..][i] == ops[i + 1];
      var next := Step(r, ops[0]);
      if next.status == Accepted {
        SentOnceInTime(id, next, ops[1..]);
      } else {
        LaterRun(next, ops[1..]);
      }
    }
  }
}
