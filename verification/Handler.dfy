/** The node's command handler: claim, execute at most once, complete, replay.
 */
module Handler {
  import opened Messages
  import opened Receipts
  import opened Outcomes
  import opened Histories
  import opened Traces
  import opened Courses
  import opened Adapter
  import opened Requests
  import opened Execution
  import J = Journal
  import S = Separation

  const MaxEphemeral := 64

  datatype Refused =
    | InvalidCommand | NotNegotiated | ConflictingDuplicate | TooManyRejected | InvalidCompletion
    | ConflictingCompletion | StorageError | Interrupted | InvalidAcknowledgement

  // A reply on the stream, or an error that ends it.
  datatype Reply = Send(result: Result) | EndStream(reason: Refused)

  // What happens to a journal transaction: it commits, commits without reply, or does not commit.
  datatype Transaction = Committed | Unacknowledged | Failing

  // Everything around one delivery that the handler does not control.
  datatype Delivery = Delivery(negotiated: bool, canceledBefore: bool, claim: Transaction, claimTimedOut: bool,
                               canceledAfterClaim: bool, expired: bool, setting: Setting, script: seq<Answer>,
                               other: Result, canceledAfterEffect: bool, complete: Transaction)

  function FullResult(id: string): Result {
    Result(id, Rejected, JournalFull, None)
  }

  // What the executor of a claimed command came to.
  datatype Effect = Ran(result: Result) | Stopped(reason: Refused)

  // Each lifecycle row is what its run committed, and that run told the truth at every point.
  ghost predicate Traced(rows: J.Rows, traces: map<string, seq<Event>>) {
    forall id | id in rows && IsLifecycle(rows[id].command.body) ::
      id in traces && WriteAhead(traces[id], rows[id].command) && rows[id].receipt == Durable(traces[id])
  }

  lemma TracedResultIsHonest(rows: J.Rows, traces: map<string, seq<Event>>, id: string, node: string)
    requires J.ValidRows(rows, node) && Traced(rows, traces)
    requires id in rows && IsLifecycle(rows[id].command.body) && rows[id].result.Some?
    ensures Honest(rows[id].result.value, Sent(traces[id]), rows[id].command)
  {
    hide ValidReceipt, ValidCommand, WriteAhead, DeliverableResult;
    J.EntryOf(rows, id, node);
    WriteAheadIsTruthful(traces[id], rows[id].command);
    TruthfulResultsAreHonest(rows[id].result.value, traces[id], rows[id].command);
  }

  // Storing results and acknowledgements does not touch what runs committed.
  lemma TracedStays(rows: J.Rows, next: J.Rows, traces: map<string, seq<Event>>)
    requires Traced(rows, traces)
    requires forall id | id in next ::
            id in rows && next[id].command == rows[id].command && next[id].receipt == rows[id].receipt
    ensures Traced(next, traces)
  {
  }

  class CommandHandler {
    const node: string
    // the durable journal
    var rows: J.Rows
    // commands refused because the journal was full, kept until they are acknowledged
    var ephemeral: map<string, Command>
    // ids that were granted to an executor, in order
    ghost var executed: seq<string>
    // what the run of each lifecycle command committed and sent
    ghost var traces: map<string, seq<Event>>

    constructor (node: string, rows: J.Rows, ghost traces: map<string, seq<Event>>)
      requires J.ValidRows(rows, node) && Traced(rows, traces)
      ensures this.node == node && this.rows == rows && ephemeral == map[] && executed == [] && Valid()
    {
      this.node, this.rows, ephemeral := node, rows, map[];
      executed, this.traces := [], traces;
    }

    ghost predicate Valid()
      reads this
    {
      && J.ValidRows(rows, node) && Traced(rows, traces)
      && |ephemeral| <= MaxEphemeral
      && (forall id | id in ephemeral :: ephemeral[id].id == id && CommandId(id))
      && ExecutedOnce()
    }

    // No id was granted twice, and each has a row.
    ghost predicate ExecutedOnce()
      reads this`executed, this`rows
    {
      && (forall i | 0 <= i < |executed| :: executed[i] in rows)
      && (forall i, j | 0 <= i < j < |executed| :: executed[i] != executed[j])
    }

    // The reply to a delivery while the journal is full: at most 64 such refusals are remembered.
    method RefuseFull(c: Command) returns (reply: Reply)
      requires Valid() && CommandId(c.id)
      modifies this`ephemeral
      ensures Valid()
      ensures if c.id in old(ephemeral)
              then ephemeral == old(ephemeral)
              else if |old(ephemeral)| < MaxEphemeral then ephemeral == old(ephemeral)[c.id := c]
              else ephemeral == old(ephemeral)
      ensures reply == if c.id in ephemeral
                       then (if J.SameCommand(ephemeral[c.id], c) then Send(FullResult(c.id))
                             else EndStream(ConflictingDuplicate))
                       else EndStream(TooManyRejected)
    {
      if c.id in ephemeral {
        return if J.SameCommand(ephemeral[c.id], c) then Send(FullResult(c.id)) else EndStream(ConflictingDuplicate);
      }
      if |ephemeral| >= MaxEphemeral {
        return EndStream(TooManyRejected);
      }
      ephemeral := ephemeral[c.id := c];
      reply := Send(FullResult(c.id));
    }

    // The row of a claimed command, about to be executed.
    ghost predicate Granted(c: Command)
      reads this
    {
      && Valid() && ValidCommand(c, node)
      && c.id in rows && rows[c.id] == J.Entry(c, None, None, "", false)
    }

    // The branches of handle between claim and completion.
    method Execute(c: Command, d: Delivery) returns (effect: Effect)
      requires Granted(c)
      modifies this`rows, this`traces
      ensures Valid() && J.Grows(old(rows), rows)
      ensures c.id in rows && rows[c.id].command == c && rows[c.id].result.None?
      ensures effect.Stopped? ==> effect.reason in {StorageError, Interrupted}
      ensures effect.Ran? && IsLifecycle(c.body) ==> effect.result.receipt == rows[c.id].receipt
      ensures effect.Ran? && IsLifecycle(c.body) && KnownSetting(d.setting) && KnownScript(d.script) ==>
                ValidResult(effect.result, c) && DeliverableResult(effect.result)
      ensures d.expired ==> effect == Ran(Result(c.id, TimedOut, DeadlineExpired, None))
      ensures !d.expired && IsLifecycle(c.body) && Undisturbed(c, d.setting, d.script) ==>
                effect.Ran? && effect.result.status == Succeeded
    {
      hide ValidCommand, ValidReceipt, ValidResult, DeliverableResult, WriteAhead, KnownScript, KnownSetting,
           J.ValidEntry, Undisturbed, ForeignCourse, LeftOpen, J.Grows, J.ValidRows;
      J.GrowsReflexive(rows);
      if d.expired {
        ExpiryIsAccepted(c);
        return Ran(Result(c.id, TimedOut, DeadlineExpired, None));
      }
      if IsLifecycle(c.body) {
        var finish, row;
        ghost var trace, refused;
        finish, row, trace, refused := LifecycleMutation(c, node, d.setting, d.script);
        Checkpointed(rows, c, row, trace, node);
        var pin := if row.Some? then row.value.handle.target.incarnation else "";
        rows := rows[c.id := J.Entry(c, None, row, pin, false)];
        traces := traces[c.id := trace];
        return if finish.StorageFailed? then Stopped(StorageError) else Ran(finish.result);
      }
      if !c.body.ProbeBody? && d.canceledAfterEffect {
        return Stopped(Interrupted);
      }
      return Ran(d.other);
    }

    // The end of handle: the result is checked, stored, and only then sent.
    method Complete(c: Command, r: Result, d: Delivery) returns (reply: Reply)
      requires Valid() && c.id in rows && rows[c.id].command == c && rows[c.id].result.None?
      requires IsLifecycle(c.body) ==> r.receipt == rows[c.id].receipt
      modifies this`rows
      ensures Valid() && J.Grows(old(rows), rows)
      ensures reply.Send? ==> reply.result == r && Answered(c, r) && c.id in rows
      ensures reply.EndStream? ==> reply.reason in {InvalidCompletion, ConflictingCompletion, StorageError}
      ensures IsLifecycle(c.body) && ValidResult(r, c) && DeliverableResult(r) ==>
                && reply != EndStream(InvalidCompletion) && reply != EndStream(ConflictingCompletion)
                && (d.complete.Committed? ==> reply == Send(r))
    {
      hide ValidCommand, ValidReceipt, ValidResult, DeliverableResult, WriteAhead, Traced, J.ValidRows, J.ValidEntry,
           J.Grows, J.Complete;
      J.GrowsReflexive(rows);
      if !J.ResultFor(r, c) {
        return EndStream(InvalidCompletion);
      }
      if d.complete.Failing? {
        return EndStream(StorageError);
      }
      CompletionStored(rows, c, r, traces, node);
      var next := J.Complete(rows, r);
      if next.None? {
        return EndStream(ConflictingCompletion);
      }
      rows := next.value;
      return if d.complete.Unacknowledged? then EndStream(StorageError) else Send(r);
    }

    // handle's claim, and the answer when the command is not granted to this delivery.
    method Admit(c: Command, d: Delivery) returns (granted: bool, reply: Reply)
      requires Valid() && ValidCommand(c, node)
      modifies this`rows, this`ephemeral, this`traces
      ensures Valid() && J.Grows(old(rows), rows)
      ensures granted ==> Granted(c) && c.id !in old(rows)
      ensures !granted && reply.Send? ==> Answered(c, reply.result)
      ensures !granted && reply.EndStream? ==>
              reply.reason in {ConflictingDuplicate, TooManyRejected, StorageError, Interrupted}
      ensures d.claim.Committed? && Replays(old(rows), c) ==> !granted && reply == Send(old(rows)[c.id].result.value)
      ensures d.claim.Committed? && J.Claim(old(rows), c).0.Conflict? ==>
              !granted && reply == EndStream(ConflictingDuplicate)
      ensures granted <==>
              && d.claim.Committed? && c.id !in old(rows) && S.MayBegin(old(rows), c)
              && !d.claimTimedOut && !d.canceledAfterClaim
    {
      hide ValidCommand, ValidReceipt, ValidResult, DeliverableResult, WriteAhead, Traced, J.ValidRows, J.ValidEntry,
           J.Grows, J.Claim, S.MayBegin;
      IdOf(c, node);
      ClaimOutcome(rows, c);
      S.GrantIsExact(rows, c, node);
      J.GrowsReflexive(rows);
      granted, reply := false, EndStream(StorageError);
      if d.claim.Failing? {
        return;
      }
      var (claim, next) := J.Claim(rows, c);
      if claim.Conflict? {
        return false, EndStream(ConflictingDuplicate);
      }
      if claim.Full? {
        reply := RefuseFull(c);
        return;
      }
      J.ClaimKeepsRows(rows, c, node);
      ClaimKeepsTraced(rows, c, traces);
      ghost var unseen := c.id !in rows;
      rows, traces := next, if unseen then traces[c.id := []] else traces;
      if d.claim.Unacknowledged? {
        return;
      }
      if claim.Replay? {
        return false, Send(claim.result);
      }
      if d.claimTimedOut {
        return;
      }
      if d.canceledAfterClaim {
        return false, EndStream(Interrupted);
      }
      granted := true;
    }

    // The command was answered before.
    predicate Replays(rows: J.Rows, c: Command) {
      c.id in rows && J.SameCommand(rows[c.id].command, c) && rows[c.id].result.Some?
    }

    // The delivery gets as far as the journal's answer.
    predicate Reaches(c: Command, d: Delivery) {
      (c.body.ProbeBody? || d.negotiated) && !d.canceledBefore && d.claim.Committed?
    }

    // The journal grants the command to this delivery, in time.
    predicate Grants(rows: J.Rows, c: Command, d: Delivery) {
      Reaches(c, d) && c.id !in rows && S.MayBegin(rows, c) && !d.claimTimedOut && !d.canceledAfterClaim
    }

    // The run goes well and its result can be stored.
    predicate GoesWell(c: Command, d: Delivery) {
      && IsLifecycle(c.body) && !d.expired && d.complete.Committed?
      && Undisturbed(c, d.setting, d.script) && KnownSetting(d.setting) && KnownScript(d.script)
    }

    // From the grant to the reply.
    method Finish(c: Command, d: Delivery) returns (reply: Reply)
      requires Granted(c) && c.id !in executed
      modifies this`rows, this`executed, this`traces
      ensures Valid() && J.Grows(old(rows), rows) && executed == old(executed) + [c.id]
      ensures reply.Send? ==> Answered(c, reply.result) && c.id in rows
      ensures reply != EndStream(InvalidCommand)
      ensures GoesWell(c, d) ==> reply.Send? && reply.result.status == Succeeded
      ensures IsLifecycle(c.body) && KnownSetting(d.setting) && KnownScript(d.script) ==>
                reply != EndStream(InvalidCompletion) && reply != EndStream(ConflictingCompletion)
    {
      hide ValidCommand, ValidReceipt, ValidResult, DeliverableResult, WriteAhead, Traced, KnownScript, KnownSetting,
           Undisturbed, J.ValidRows, J.ValidEntry, J.Grows;
      executed := executed + [c.id];
      var effect := Execute(c, d);
      ghost var between := rows;
      if effect.Stopped? {
        return EndStream(effect.reason);
      }
      reply := Complete(c, effect.result, d);
      J.GrowsTransitive(old(rows), between, rows);
    }

    /** acknowledge: a remembered refusal is forgotten; anything else must match the stored result. */
    method Acknowledge(id: string, status: Status, storage: Transaction) returns (failed: Option<Refused>)
      requires Valid()
      modifies this`rows, this`ephemeral
      ensures Valid() && J.Grows(old(rows), rows)
      ensures id in old(ephemeral) ==>
                rows == old(rows) && ephemeral == (if status == Rejected then old(ephemeral) - {id} else old(ephemeral))
      ensures id !in old(ephemeral) ==> ephemeral == old(ephemeral)
      ensures failed.None? <==>
              && CommandId(id)
              && if id in old(ephemeral) then status == Rejected
                 else storage.Committed? && J.Acknowledge(old(rows), id, status).Some?
      ensures failed.None? && id !in old(ephemeral) ==>
                id in rows && rows[id].result.Some? && rows[id].result.value.status == status && rows[id].delivered
    {
      hide ValidCommand, ValidReceipt, ValidResult, DeliverableResult, WriteAhead, Traced, J.ValidRows, J.ValidEntry,
           J.Grows, J.Acknowledge, CommandId;
      J.GrowsReflexive(rows);
      if !CommandId(id) {
        return Some(InvalidAcknowledgement);
      }
      if id in ephemeral {
        if status != Rejected {
          return Some(InvalidAcknowledgement);
        }
        DropOne(ephemeral, id);
        ephemeral := ephemeral - {id};
        return None;
      }
      if storage.Failing? {
        return Some(StorageError);
      }
      var next := J.Acknowledge(rows, id, status);
      if next.None? {
        return Some(InvalidAcknowledgement);
      }
      AcknowledgementStored(rows, id, status, traces, node);
      rows := next.value;
      return if storage.Unacknowledged? then Some(StorageError) else None;
    }

    // A reply is either the durable result of the command's row, or a refusal that is remembered
    // until it is acknowledged.
    ghost predicate Answered(c: Command, r: Result)
      reads this
    {
      if c.id in rows then rows[c.id].result == Some(r) && J.SameCommand(rows[c.id].command, c)
      else r == FullResult(c.id) && c.id in ephemeral
    }

    /** One delivery of a command: it is executed at most once over all deliveries; what is sent is
        what is stored; a lifecycle reply is honest about the mutations sent; and a lifecycle run
        never ends in a completion that the journal refuses. */
    method Handle(c: Command, d: Delivery) returns (reply: Reply)
      requires Valid()
      modifies this`rows, this`ephemeral, this`executed, this`traces
      ensures Valid() && J.Grows(old(rows), rows)
      ensures executed ==
              if ValidCommand(c, node) && Grants(old(rows), c, d) then old(executed) + [c.id]
              else old(executed)
      ensures executed != old(executed) ==> c.id !in old(rows)
      ensures ValidCommand(c, node) && Grants(old(rows), c, d) && GoesWell(c, d) ==>
                reply.Send? && reply.result.status == Succeeded
      ensures reply == EndStream(InvalidCommand) <==> !ValidCommand(c, node)
      ensures reply.Send? ==> Answered(c, reply.result)
      ensures ValidCommand(c, node) && Reaches(c, d) && Replays(old(rows), c) ==>
              reply == Send(old(rows)[c.id].result.value)
      ensures reply.Send? && IsLifecycle(c.body) ==>
                Honest(reply.result, if c.id in rows && c.id in traces then Sent(traces[c.id]) else [], c)
      ensures IsLifecycle(c.body) && KnownSetting(d.setting) && KnownScript(d.script) ==>
                reply != EndStream(InvalidCompletion) && reply != EndStream(ConflictingCompletion)
    {
      hide ValidCommand, ValidReceipt, ValidResult, DeliverableResult, WriteAhead, Traced, KnownScript, KnownSetting,
           GoesWell, J.ValidRows, J.ValidEntry, J.Grows, J.Claim, S.MayBegin, Honest;
      J.GrowsReflexive(rows);
      if !ValidCommand(c, node) {
        return EndStream(InvalidCommand);
      }
      if !c.body.ProbeBody? && !d.negotiated {
        return EndStream(NotNegotiated);
      }
      if d.canceledBefore {
        return EndStream(Interrupted);
      }
      var granted;
      granted, reply := Admit(c, d);
      if granted {
        ghost var admitted := rows;
        reply := Finish(c, d);
        J.GrowsTransitive(old(rows), admitted, rows);
      }
      if reply.Send? && IsLifecycle(c.body) { AnswerIsHonest(c, reply.result); }
    }

    lemma AnswerIsHonest(c: Command, r: Result)
      requires Valid() && Answered(c, r) && IsLifecycle(c.body)
      ensures Honest(r, if c.id in rows && c.id in traces then Sent(traces[c.id]) else [], c)
    {
      hide ValidCommand, ValidReceipt, ValidResult, DeliverableResult, WriteAhead, J.ValidEntry;
      if c.id in rows { TracedResultIsHonest(rows, traces, c.id, node); }
    }
  }

  // A result that fits its command is stored unless it could not be delivered.
  lemma CompletionStored(rows: J.Rows, c: Command, r: Result, traces: map<string, seq<Event>>, node: string)
    requires J.ValidRows(rows, node) && Traced(rows, traces) && c.id in rows && rows[c.id].command == c
    requires rows[c.id].result.None?
    requires J.ResultFor(r, c) && (IsLifecycle(c.body) ==> r.receipt == rows[c.id].receipt)
    ensures J.Complete(rows, r).None? ==> IsLifecycle(c.body) && !DeliverableResult(r)
    ensures J.Complete(rows, r).Some? ==>
              var next := J.Complete(rows, r).value;
              && J.ValidRows(next, node) && Traced(next, traces) && J.Grows(rows, next)
              && (forall id | id in rows :: id in next)
              && c.id in next && next[c.id].result == Some(r) && next[c.id].command == c
  {
    hide ValidCommand, ValidReceipt, DeliverableResult, WriteAhead, J.ValidRows, J.ValidEntry, J.Grows;
    assert r.id == c.id;
    J.ApplyKeepsRows(rows, J.CompleteOp(r), node);
    if J.Complete(rows, r).Some? { TracedStays(rows, J.Complete(rows, r).value, traces); }
  }

  lemma AcknowledgementStored(rows: J.Rows, id: string, status: Status, traces: map<string, seq<Event>>, node: string)
    requires J.ValidRows(rows, node) && Traced(rows, traces) && J.Acknowledge(rows, id, status).Some?
    ensures var next := J.Acknowledge(rows, id, status).value;
            && J.ValidRows(next, node) && Traced(next, traces) && J.Grows(rows, next)
            && (forall k | k in rows :: k in next)
            && id in next && next[id].result.Some? && next[id].result.value.status == status && next[id].delivered
  {
    hide ValidCommand, ValidReceipt, ValidResult, WriteAhead, J.ValidRows, J.ValidEntry, J.Grows;
    J.ApplyKeepsRows(rows, J.AcknowledgeOp(id, status), node);
    TracedStays(rows, J.Acknowledge(rows, id, status).value, traces);
  }

  lemma DropOne(m: map<string, Command>, id: string)
    ensures |m - {id}| <= |m|
  {
    assert (m - {id}).Keys <= m.Keys;
    SubsetSize((m - {id}).Keys, m.Keys);
    assert |m - {id}| == |(m - {id}).Keys| && |m| == |m.Keys|;
  }

  lemma {:induction false} SubsetSize(a: set<string>, b: set<string>)
    requires a <= b
    ensures |a| <= |b|
  {
    if a != {} {
      var x :| x in a;
      SubsetSize(a - {x}, b - {x});
    }
  }

  lemma IdOf(c: Command, node: string)
    requires ValidCommand(c, node)
    ensures CommandId(c.id)
  {
  }

  // What a claim did to the journal.
  lemma ClaimOutcome(rows: J.Rows, c: Command)
    ensures var (reply, next) := J.Claim(rows, c);
            && (reply.Conflict? || reply.Full? ==> next == rows)
            && (c.id in rows && J.SameCommand(rows[c.id].command, c) && rows[c.id].result.Some? ==>
                  reply == J.Replay(rows[c.id].result.value))
            && (reply.Full? ==> c.id !in rows)
            && (reply.Claimed? ==> c.id !in rows && next == rows[c.id := J.Entry(c, None, None, "", false)])
            && (reply.Replay? ==>
                  c.id in next && next[c.id].result == Some(reply.result) && J.SameCommand(next[c.id].command, c))
            && (forall id | id in rows :: id in next)
  {
    hide J.Fenced, J.ProjectFenced, Recovered;
  }

  // A new row has committed nothing.
  lemma ClaimKeepsTraced(rows: J.Rows, c: Command, traces: map<string, seq<Event>>)
    requires Traced(rows, traces)
    ensures Traced(J.Claim(rows, c).1, if c.id in rows then traces else traces[c.id := []])
  {
    hide J.Fenced, J.ProjectFenced, Recovered, WriteAhead, Durable;
    EmptyTraceIsWriteAhead(c);
  }

  lemma ExpiryIsAccepted(c: Command)
    ensures var r := Result(c.id, TimedOut, DeadlineExpired, None);
            DeliverableResult(r) && (IsLifecycle(c.body) ==> ValidResult(r, c))
  {
  }

  // The row after a run's checkpoints.
  lemma Checkpointed(rows: J.Rows, c: Command, row: Option<Receipt>, trace: seq<Event>, node: string)
    requires J.ValidRows(rows, node) && ValidCommand(c, node) && IsLifecycle(c.body)
    requires c.id in rows && rows[c.id] == J.Entry(c, None, None, "", false)
    requires WriteAhead(trace, c) && row == Durable(trace)
    ensures var e := J.Entry(c, None, row, if row.Some? then row.value.handle.target.incarnation else "", false);
            J.ValidRows(rows[c.id := e], node) && J.Grows(rows, rows[c.id := e])
  {
    hide ValidCommand, ReceiptSize, StageHistory, Summarizes, Evidence, HandleOf;
    WriteAheadIsTruthful(trace, c);
    DurableIsValid(trace, c);
    var pin := if row.Some? then row.value.handle.target.incarnation else "";
    J.PutKeepsRows(rows, c.id, J.Entry(c, None, row, pin, false), node);
  }
}
