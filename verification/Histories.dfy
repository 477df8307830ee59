/** The order in which receipts may follow each other, and the two readers that rely on it: the
    client that polls a command and the coordinator that stores its progress.
 */
module Histories {
  import opened Messages
  import opened Receipts
  import opened Outcomes

  predicate Pinned(before: string, after: string) {
    before == "" || before == after
  }

  predicate PinnedIdentity(a: Handle, b: Handle) {
    && Pinned(a.workspace, b.workspace) && Pinned(a.tab, b.tab)
    && Pinned(a.target.pane, b.target.pane) && Pinned(a.target.terminal, b.target.terminal)
    && Pinned(a.target.agentSession, b.target.agentSession)
    && Pinned(a.target.sessionName, b.target.sessionName) && Pinned(a.target.incarnation, b.target.incarnation)
  }

  // next tells everything prior told, and changes nothing else unless it tells more.
  predicate Extends(prior: Receipt, next: Receipt) {
    && prior.stages <= next.stages
    && PinnedIdentity(prior.handle, next.handle)
    && (prior.handle.provider.Named? ==> prior.handle.provider == next.handle.provider)
    && (|prior.stages| == |next.stages| ==> prior == next)
  }

  predicate Advance(prior: Option<Receipt>, next: Receipt, c: Command) {
    && ValidReceipt(next, c)
    && (prior.Some? ==> ValidReceipt(prior.value, c) && Extends(prior.value, next))
  }

  // protocol.ValidateLifecycleAdvance
  method ValidateAdvance(prior: Option<Receipt>, next: Receipt, c: Command) returns (ok: bool)
    ensures ok <==> Advance(prior, next, c)
  {
    ok := ValidateReceipt(next, c);
    if !ok || prior.None? {
      return;
    }
    ok := ValidateReceipt(prior.value, c);
    if !ok {
      return;
    }
    ok := KeepsStages(prior.value.stages, next.stages);
    if !ok {
      return;
    }
    var a, b := prior.value.handle, next.handle;
    ok := KeepsPins([(a.workspace, b.workspace), (a.tab, b.tab), (a.target.pane, b.target.pane),
                     (a.target.terminal, b.target.terminal), (a.target.agentSession, b.target.agentSession),
                     (a.target.sessionName, b.target.sessionName), (a.target.incarnation, b.target.incarnation)]);
    if !ok || (a.provider != NoProvider && a.provider != UnknownProvider && a.provider != b.provider) {
      return false;
    }
    ok := |prior.value.stages| != |next.stages| || prior.value == next;
  }

  method KeepsStages(prior: seq<StageEvent>, next: seq<StageEvent>) returns (ok: bool)
    ensures ok <==> prior <= next
  {
    if |prior| > |next| {
      return false;
    }
    for i := 0 to |prior|
      invariant prior[..i] == next[..i]
    {
      if prior[i] != next[i] {
        return false;
      }
    }
    ok := true;
  }

  // The loop over the pairs of identifiers that must not change once they are known.
  method KeepsPins(pairs: seq<(string, string)>) returns (ok: bool)
    requires |pairs| == 7
    ensures ok <==> && Pinned(pairs[0].0, pairs[0].1) && Pinned(pairs[1].0, pairs[1].1)
                    && Pinned(pairs[2].0, pairs[2].1) && Pinned(pairs[3].0, pairs[3].1)
                    && Pinned(pairs[4].0, pairs[4].1) && Pinned(pairs[5].0, pairs[5].1)
                    && Pinned(pairs[6].0, pairs[6].1)
  {
    for i := 0 to |pairs|
      invariant forall j | 0 <= j < i :: Pinned(pairs[j].0, pairs[j].1)
    {
      if pairs[i].0 != "" && pairs[i].0 != pairs[i].1 {
        return false;
      }
    }
    ok := true;
  }

  /******* A partial order *******/

  lemma ExtendsReflexive(r: Receipt)
    ensures Extends(r, r)
  {
  }

  lemma ExtendsTransitive(a: Receipt, b: Receipt, c: Receipt)
    requires Extends(a, b) && Extends(b, c)
    ensures Extends(a, c)
  {
    assert a.stages == b.stages[..|a.stages|];
    assert b.stages == c.stages[..|b.stages|];
    assert a.stages == c.stages[..|a.stages|];
  }

  /** On valid receipts the advance check is a partial order. */
  lemma AdvanceIsPartialOrder(a: Receipt, b: Receipt, c: Receipt, command: Command)
    requires ValidReceipt(a, command) && ValidReceipt(b, command) && ValidReceipt(c, command)
    ensures Advance(Some(a), a, command)
    ensures Advance(Some(a), b, command) && Advance(Some(b), a, command) ==> a == b
    ensures Advance(Some(a), b, command) && Advance(Some(b), c, command) ==> Advance(Some(a), c, command)
  {
    if Extends(a, b) && Extends(b, c) { ExtendsTransitive(a, b, c); }
  }

  /** An outcome that has been reported is never rewritten; only an open intent can still change. */
  lemma ReportedOutcomesAreFinal(prior: Receipt, next: Receipt, c: Command, s: Stage)
    requires Advance(Some(prior), next, c) && !s.OtherStage?
    ensures StageOutcome(next, s) == StageOutcome(prior, s)
            || StageOutcome(prior, s) == NotAttempted
            || (StageOutcome(prior, s) == Unknown && |prior.stages| > 0
                && prior.stages[|prior.stages| - 1] == StageEvent(s, true, Unknown))
  {
    if c.body.StartBody? {
      StartOutcomes(prior.stages, c.body);
      StartOutcomes(next.stages, c.body);
    } else {
      StopOutcomes(prior.stages, c.body);
      StopOutcomes(next.stages, c.body);
    }
    if |prior.stages| > 0 {
      assert HistoryEvent(StageOrder(c.body), prior.stages, |prior.stages| - 1);
    }
  }

  /******* Histories *******/

  // Receipts of one command, each an advance of the one before.
  predicate History(rs: seq<Receipt>, c: Command) {
    && (forall i | 0 <= i < |rs| :: ValidReceipt(rs[i], c))
    && (forall i | 0 <= i < |rs| - 1 :: Extends(rs[i], rs[i + 1]))
  }

  lemma {:induction false} HistoryIsOrdered(rs: seq<Receipt>, c: Command, i: nat, j: nat)
    requires History(rs, c) && i <= j < |rs|
    ensures Extends(rs[i], rs[j])
    decreases j - i
  {
    hide ValidReceipt, Extends;
    if i == j {
      ExtendsReflexive(rs[i]);
    } else {
      HistoryIsOrdered(rs, c, i, j - 1);
      assert Extends(rs[j - 1], rs[j - 1 + 1]);
      ExtendsTransitive(rs[i], rs[j - 1], rs[j]);
    }
  }

  /** A reader that misses checkpoints accepts the same history: any selection of a history, in
      order, is again a history. */
  lemma MissedCheckpoints(rs: seq<Receipt>, c: Command, seen: seq<nat>)
    requires History(rs, c)
    requires forall k | 0 <= k < |seen| :: seen[k] < |rs|
    requires forall k | 0 <= k < |seen| - 1 :: seen[k] <= seen[k + 1]
    ensures History(seq(|seen|, k requires 0 <= k < |seen| => rs[seen[k]]), c)
  {
    var picked := seq(|seen|, k requires 0 <= k < |seen| => rs[seen[k]]);
    forall k | 0 <= k < |picked| - 1 ensures Extends(picked[k], picked[k + 1]) {
      HistoryIsOrdered(rs, c, seen[k], seen[k + 1]);
    }
  }

  /******* The coordinator's copy *******/

  datatype Record = Record(command: Command, status: Status, detail: Detail, receipt: Option<Receipt>)

  function RecordResult(r: Record): Result {
    Result(r.command.id, r.status, r.detail, r.receipt)
  }

  // state.SaveCommandProgress: None is a conflict.
  function SaveProgress(record: Record, progress: Receipt): Option<Record> {
    if record.receipt.Some? && progress.sequence <= record.receipt.value.sequence then
      if Advance(Some(progress), record.receipt.value, record.command) then Some(record) else None
    else if record.status != Running && record.status != Indeterminate then None
    else
      var next := record.(receipt := Some(progress));
      if Advance(record.receipt, progress, record.command)
        && (Terminal(record.status) ==> ValidResult(RecordResult(next), record.command))
      then Some(next) else None
  }

  // The node may still be at work: the command runs, or only the coordinator lost sight of it.
  predicate StillOpen(record: Record) {
    || record.status == Running
    || (record.status == Indeterminate && record.detail in {NodeDisconnected, ServerRestarted, DeadlineExpired})
  }

  function SaveAll(record: Record, history: seq<Receipt>, arrivals: seq<nat>): Option<Record>
    requires forall k | 0 <= k < |arrivals| :: arrivals[k] < |history|
    decreases |arrivals|
  {
    if arrivals == [] then Some(record)
    else
      match SaveProgress(record, history[arrivals[0]])
      case None => None
      case Some(next) => SaveAll(next, history, arrivals[1..])
  }

  // The latest checkpoint among those stored and those that arrived.
  function Latest(have: Option<nat>, arrivals: seq<nat>): Option<nat>
    decreases |arrivals|
  {
    if arrivals == [] then have
    else if have.Some? && arrivals[0] <= have.value then Latest(have, arrivals[1..])
    else Latest(Some(arrivals[0]), arrivals[1..])
  }

  predicate Growing(history: seq<Receipt>) {
    forall i, j | 0 <= i < j < |history| :: history[i].sequence < history[j].sequence
  }

  // One arrival: the stored receipt becomes the later of the two.
  lemma ProgressStep(record: Record, history: seq<Receipt>, have: Option<nat>, k: nat)
    requires IsLifecycle(record.command.body) && StillOpen(record)
    requires History(history, record.command) && Growing(history) && k < |history|
    requires have.Some? ==> have.value < |history|
    requires record.receipt == if have.None? then None else Some(history[have.value])
    ensures SaveProgress(record, history[k]) ==
            Some(if have.Some? && k <= have.value then record else record.(receipt := Some(history[k])))
  {
    if have.Some? {
      if k <= have.value {
        HistoryIsOrdered(history, record.command, k, have.value);
      } else {
        HistoryIsOrdered(history, record.command, have.value, k);
      }
    }
  }

  /** What is accepted as progress is part of the history that is then stored: the stored receipt only
      advances, and an accepted checkpoint, late or not, is one it has passed through. */
  lemma AcceptedProgressIsHistory(record: Record, progress: Receipt)
    requires SaveProgress(record, progress).Some?
    requires record.receipt.Some? ==> ValidReceipt(record.receipt.value, record.command)
    ensures var next := SaveProgress(record, progress).value;
            && next == record.(receipt := next.receipt) && next.receipt.Some?
            && Advance(Some(progress), next.receipt.value, record.command)
            && (record.receipt.Some? ==> Extends(record.receipt.value, next.receipt.value))
  {
    hide ValidReceipt, ValidResult;
    ExtendsReflexive(progress);
    if record.receipt.Some? { ExtendsReflexive(record.receipt.value); }
  }

  /** Progress converges: checkpoints may be delayed, repeated, lost or reordered; none is refused
      and the stored receipt is the latest one that arrived. */
  lemma {:induction false} ProgressConverges(record: Record, history: seq<Receipt>, have: Option<nat>,
        arrivals: seq<nat>)
    requires IsLifecycle(record.command.body) && StillOpen(record)
    requires History(history, record.command) && Growing(history)
    requires forall k | 0 <= k < |arrivals| :: arrivals[k] < |history|
    requires have.Some? ==> have.value < |history|
    requires record.receipt == if have.None? then None else Some(history[have.value])
    ensures Latest(have, arrivals).Some? ==> Latest(have, arrivals).value < |history|
    ensures SaveAll(record, history, arrivals) ==
            Some(record.(receipt := if Latest(have, arrivals).None? then None
                                    else Some(history[Latest(have, arrivals).value])))
    decreases |arrivals|
  {
    if arrivals != [] {
      var k := arrivals[0];
      ProgressStep(record, history, have, k);
      if have.Some? && k <= have.value {
        ProgressConverges(record, history, have, arrivals[1..]);
      } else {
        ProgressConverges(record.(receipt := Some(history[k])), history, Some(k), arrivals[1..]);
      }
    }
  }

  lemma {:induction false} LatestIsMaximum(have: Option<nat>, arrivals: seq<nat>)
    ensures Latest(have, arrivals).None? <==> have.None? && arrivals == []
    ensures Latest(have, arrivals).Some? ==>
              (Some(Latest(have, arrivals).value) == have || Latest(have, arrivals).value in arrivals)
    ensures have.Some? ==> Latest(have, arrivals).Some? && have.value <= Latest(have, arrivals).value
    ensures forall i | 0 <= i < |arrivals| :: arrivals[i] <= Latest(have, arrivals).value
    decreases |arrivals|
  {
    if arrivals != [] {
      var kept := if have.Some? && arrivals[0] <= have.value then have else Some(arrivals[0]);
      LatestIsMaximum(kept, arrivals[1..]);
      forall i | 0 <= i < |arrivals| ensures arrivals[i] <= Latest(have, arrivals).value {
        if i > 0 { assert arrivals[i] == arrivals[1..][i - 1]; }
      }
    }
  }
}
