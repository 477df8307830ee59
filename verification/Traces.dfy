/** What one lifecycle run leaves behind: the receipts it committed and the native mutations it
    sent, in order.  A crash leaves a prefix of such a trace.
 */
module Traces {
  import opened Messages
  import opened Receipts
  import opened Outcomes
  import opened Histories

  datatype Event = Saved(receipt: Receipt) | Dispatched(stage: Stage)

  function Saves(trace: seq<Event>): seq<Receipt> {
    if trace == [] then []
    else
      var last := trace[|trace| - 1];
      Saves(trace[..|trace| - 1]) + if last.Saved? then [last.receipt] else []
  }

  // The native mutations that were sent, in order.
  function Sent(trace: seq<Event>): seq<Stage> {
    if trace == [] then []
    else
      var last := trace[|trace| - 1];
      Sent(trace[..|trace| - 1]) + if last.Dispatched? then [last.stage] else []
  }

  // The journal row after the trace.
  function Durable(trace: seq<Event>): Option<Receipt> {
    var saves := Saves(trace);
    if saves == [] then None else Some(saves[|saves| - 1])
  }

  function DurableOutcome(row: Option<Receipt>, s: Stage): Outcome {
    if row.Some? then StageOutcome(row.value, s) else NotAttempted
  }

  // The row is honest about what was sent: each mutation is on record as possible, and each
  // confirmation had one.
  ghost predicate HonestRow(row: Option<Receipt>, sent: seq<Stage>) {
    && (forall s | s in sent :: DurableOutcome(row, s) in {Unknown, Confirmed})
    && (forall s: Stage :: DurableOutcome(row, s) == Confirmed ==> s in sent)
  }

  predicate SentOnce(sent: seq<Stage>, c: Command) {
    && Distinct(sent)
    && forall i | 0 <= i < |sent| :: sent[i] in StageOrder(c.body)
  }

  // The journal tells the truth at this point: its receipts form a history, no mutation was sent
  // twice, and the row is honest about them.
  ghost predicate Truthful(trace: seq<Event>, c: Command) {
    && History(Saves(trace), c)
    && SentOnce(Sent(trace), c)
    && HonestRow(Durable(trace), Sent(trace))
  }

  // It tells the truth at every point, so wherever a crash cuts the run.
  ghost predicate WriteAhead(trace: seq<Event>, c: Command) {
    Truthful(trace, c) && (trace != [] ==> WriteAhead(trace[..|trace| - 1], c))
  }

  lemma EmptyTraceIsWriteAhead(c: Command)
    ensures WriteAhead([], c) && Sent([]) == [] && Durable([]) == None
  {
  }

  lemma WriteAheadIsTruthful(trace: seq<Event>, c: Command)
    requires WriteAhead(trace, c)
    ensures Truthful(trace, c)
  {
  }

  lemma AppendSaved(trace: seq<Event>, r: Receipt)
    ensures Saves(trace + [Saved(r)]) == Saves(trace) + [r]
    ensures Durable(trace + [Saved(r)]) == Some(r)
    ensures Sent(trace + [Saved(r)]) == Sent(trace)
  {
    assert (trace + [Saved(r)])[..|trace|] == trace;
  }

  lemma AppendDispatched(trace: seq<Event>, d: Stage)
    ensures Saves(trace + [Dispatched(d)]) == Saves(trace)
    ensures Durable(trace + [Dispatched(d)]) == Durable(trace)
    ensures Sent(trace + [Dispatched(d)]) == Sent(trace) + [d]
  {
    assert (trace + [Dispatched(d)])[..|trace|] == trace;
  }

  // Committing an advance keeps the promise when its outcomes are honest.
  lemma SaveKeepsWriteAhead(trace: seq<Event>, r: Receipt, c: Command)
    requires WriteAhead(trace, c) && Advance(Durable(trace), r, c)
    requires HonestRow(Some(r), Sent(trace))
    ensures WriteAhead(trace + [Saved(r)], c)
    ensures Durable(trace + [Saved(r)]) == Some(r) && Sent(trace + [Saved(r)]) == Sent(trace)
  {
    hide ValidReceipt, Extends, HonestRow;
    AppendSaved(trace, r);
    assert (trace + [Saved(r)])[..|trace|] == trace;
  }

  // Sending a mutation keeps it when the intent is already durable and nothing was sent for it.
  lemma DispatchKeepsWriteAhead(trace: seq<Event>, d: Stage, c: Command)
    requires WriteAhead(trace, c) && d in StageOrder(c.body) && d !in Sent(trace)
    requires DurableOutcome(Durable(trace), d) == Unknown
    ensures WriteAhead(trace + [Dispatched(d)], c)
    ensures Durable(trace + [Dispatched(d)]) == Durable(trace) && Sent(trace + [Dispatched(d)]) == Sent(trace) + [d]
  {
    hide ValidReceipt, Extends;
    AppendDispatched(trace, d);
    assert (trace + [Dispatched(d)])[..|trace|] == trace;
  }

  lemma {:induction false} WriteAheadPrefix(trace: seq<Event>, c: Command, k: nat)
    requires WriteAhead(trace, c) && k <= |trace|
    ensures WriteAhead(trace[..k], c)
    decreases |trace|
  {
    hide Truthful;
    if k < |trace| {
      WriteAheadPrefix(trace[..|trace| - 1], c, k);
      assert trace[..|trace| - 1][..k] == trace[..k];
    } else {
      assert trace[..k] == trace;
    }
  }

  lemma DurableIsValid(trace: seq<Event>, c: Command)
    requires Truthful(trace, c)
    ensures DurableReceipt(Durable(trace), c)
  {
  }

  // A checkpoint of a truthful run advances the row that its run left so far.
  lemma SavedAdvances(trace: seq<Event>, r: Receipt, c: Command)
    requires Truthful(trace + [Saved(r)], c)
    ensures Advance(Durable(trace), r, c)
  {
    hide ValidReceipt, Extends;
    AppendSaved(trace, r);
    var saves := Saves(trace + [Saved(r)]);
    assert saves[|saves| - 1] == r && ValidReceipt(r, c);
    if Saves(trace) != [] {
      var k := |saves| - 2;
      assert Saves(trace)[k] == saves[k];
      assert ValidReceipt(saves[k], c) && Extends(saves[k], saves[k + 1]);
    }
  }

  // A result that is honest about the native effects.
  ghost predicate Honest(result: Result, sent: seq<Stage>, c: Command) {
    && (result.status in {Rejected, TimedOut} ==> sent == [])
    && (result.status == Succeeded ==>
          forall s | s in StageOrder(c.body) && (s == Prompt ==> PromptRequested(c)) :: s in sent)
    && (result.status == Failed ==>
          forall s | s in sent :: result.receipt.Some? && StageOutcome(result.receipt.value, s) == Confirmed)
  }

  /** Every valid result drawn from a truthful journal is honest: it denies an effect only when no
      mutation was sent, reports success only when every stage was, and reports a partial failure
      only when all that was sent is confirmed. */
  lemma TruthfulResultsAreHonest(result: Result, trace: seq<Event>, c: Command)
    requires Truthful(trace, c) && ValidResult(result, c) && result.receipt == Durable(trace)
    ensures Honest(result, Sent(trace), c)
  {
    hide ValidReceipt, Extends, Sent, Durable, Saves;
    var sent := Sent(trace);
    if sent != [] {
      assert DurableOutcome(Durable(trace), sent[0]) in {Unknown, Confirmed};
      assert !sent[0].OtherStage?;
    }
    forall s | result.status == Succeeded && s in StageOrder(c.body) && (s == Prompt ==> PromptRequested(c))
      ensures s in sent
    {
      assert DurableOutcome(Durable(trace), s) == Confirmed;
    }
  }

  /** A crash at any point of a run is recovered honestly: the recovered result passes the result
      check and is honest about the mutations sent before the crash, none of them twice. */
  lemma CrashIsRecoveredHonestly(trace: seq<Event>, c: Command, k: nat)
    requires WriteAhead(trace, c) && IsLifecycle(c.body) && k <= |trace|
    ensures SentOnce(Sent(trace[..k]), c)
    ensures ValidResult(Recovered(c, Durable(trace[..k])), c)
    ensures Honest(Recovered(c, Durable(trace[..k])), Sent(trace[..k]), c)
  {
    hide ValidReceipt, ValidResult, Extends, Honest;
    WriteAheadPrefix(trace, c, k);
    var cut := trace[..k];
    DurableIsValid(cut, c);
    RecoveryIsAccepted(c, Durable(cut));
    TruthfulResultsAreHonest(Recovered(c, Durable(cut)), cut, c);
  }

  /** A later stage is only sent after the earlier one was durably confirmed. */
  lemma StagesAreSentInOrder(trace: seq<Event>, c: Command)
    requires Truthful(trace, c)
    ensures Launch in Sent(trace) ==>
            DurableOutcome(Durable(trace), CreatePane) == Confirmed && CreatePane in Sent(trace)
    ensures Prompt in Sent(trace) ==> DurableOutcome(Durable(trace), Launch) == Confirmed && Launch in Sent(trace)
    ensures Prompt in Sent(trace) ==> PromptRequested(c)
  {
    DurableIsValid(trace, c);
    if Durable(trace).Some? { StageDependencies(Durable(trace).value, c); }
    if Launch in Sent(trace) { assert DurableOutcome(Durable(trace), Launch) != NotAttempted; }
    if Prompt in Sent(trace) {
      assert DurableOutcome(Durable(trace), Prompt) != NotAttempted;
      assert Prompt in StageOrder(c.body);
    }
  }
}
