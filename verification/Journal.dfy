/** The node's durable command journal: execution intents, lifecycle checkpoints and result
    tombstones, and the fence that keeps unresolved native effects apart.
 */
module Journal {
  import opened Messages
  import opened Receipts
  import opened Outcomes
  import opened Histories
  import opened Requests

  const MaxCommands := 4096

  // A row has no result while its command runs.  pin is the native incarnation its effects are
  // scoped to, when known.
  datatype Entry = Entry(command: Command, result: Option<Result>, receipt: Option<Receipt>, pin: string,
                         delivered: bool)

  type Rows = map<string, Entry>

  // protocol.ValidateResultForCommand; results of other command types carry no receipt.
  predicate ResultFor(r: Result, c: Command) {
    if IsLifecycle(c.body) then ValidResult(r, c)
    else r.id == c.id && r.receipt.None? && Terminal(r.status)
  }

  predicate ValidEntry(id: string, e: Entry, node: string) {
    && e.command.id == id && ValidCommand(e.command, node)
    && DurableReceipt(e.receipt, e.command)
    && (e.receipt.Some? ==> IsLifecycle(e.command.body) && e.pin == e.receipt.value.handle.target.incarnation)
    && (e.pin != "" ==> Incarnation(e.pin) && (IsLifecycle(e.command.body) ==> e.receipt.Some?))
    && (e.command.body.ControlBody? ==> !Different(BodySession(e.command.body).1, e.pin))
    && (e.result.None? ==> !e.delivered)
    && (e.result.Some? ==> ResultFor(e.result.value, e.command))
    && (e.result.Some? && IsLifecycle(e.command.body) ==> e.result.value.receipt == e.receipt)
  }

  predicate ValidRows(rows: Rows, node: string) {
    forall id | id in rows :: ValidEntry(id, rows[id], node)
  }

  /******* The fence *******/

  predicate Unresolved(e: Entry) {
    e.result.None? || e.result.value.status == Indeterminate
  }

  // lifecycleIncarnation
  function KnownIncarnation(c: Command, r: Option<Receipt>): string {
    if r.Some? then r.value.handle.target.incarnation else BodySession(c.body).1
  }

  predicate Different(a: string, b: string) {
    a != "" && b != "" && a != b
  }

  // lifecycleConflict, once the earlier command is known to be unresolved
  predicate Clashes(prior: Command, receipt: Option<Receipt>, c: Command, scope: string) {
    && prior.id != c.id && prior.target == c.target
    && !Different(KnownIncarnation(prior, receipt), scope)
    && match (prior.body, c.body)
       case (StartBody(was), StartBody(s)) => was.workspace == s.workspace
       case (ControlBody(was), ControlBody(a)) =>
         !was.action.InterruptAction? && !a.action.InterruptAction? && was.target.terminal == a.target.terminal
       case (StartBody(_), ControlBody(a)) =>
         && !a.action.InterruptAction?
         && (|| receipt.None? || receipt.value.handle.target.terminal == ""
             || receipt.value.handle.target.terminal == a.target.terminal)
       case (StopBody(was), ControlBody(a)) =>
         !a.action.InterruptAction? && was.target.terminal == a.target.terminal
       case _ => false
  }

  predicate Conflicts(prior: Entry, c: Command, scope: string) {
    Unresolved(prior) && !Different(prior.pin, scope) && Clashes(prior.command, prior.receipt, c, scope)
  }

  // checkNodeLifecycleFence
  predicate Fenced(rows: Rows, c: Command, incarnation: string) {
    exists id | id in rows ::
      Conflicts(rows[id], c, if incarnation == "" then KnownIncarnation(c, None) else incarnation)
  }

  /******* Operations *******/

  datatype ClaimReply = Claimed | Replay(result: Result) | Conflict | Full

  // matchingNodeCommand: what remains of the wire TTL is not identity.
  predicate SameCommand(a: Command, b: Command) {
    a == b.(ttl := a.ttl)
  }

  function WithResult(rows: Rows, id: string, r: Result): Rows
    requires id in rows
  {
    rows[id := rows[id].(result := Some(r), delivered := false)]
  }

  // A project mutation waits for every earlier one whose outcome is still open.
  predicate ProjectFenced(rows: Rows, c: Command) {
    && BodyProject(c.body).0 != "" && !IsLifecycle(c.body)
    && exists id | id in rows :: && Unresolved(rows[id]) && !IsLifecycle(rows[id].command.body)
                                 && BodyProject(rows[id].command.body).0 == BodyProject(c.body).0
  }

  const ProjectUnresolved := OtherDetail("project_unresolved")

  // NodeJournal.Claim
  function Claim(rows: Rows, c: Command): (ClaimReply, Rows) {
    if c.id in rows then
      var e := rows[c.id];
      if !SameCommand(e.command, c) then (Conflict, rows)
      else if e.result.Some? then (Replay(e.result.value), rows)
      else
        var r := Recovered(c, e.receipt);
        (Replay(r), WithResult(rows, c.id, r))
    else if |rows| >= MaxCommands then (Full, rows)
    else if Fenced(rows, c, "") then
      var r := Result(c.id, Rejected, LifecycleUnresolved, None);
      (Replay(r), rows[c.id := Entry(c, Some(r), None, "", false)])
    else if ProjectFenced(rows, c) then
      var r := Result(c.id, Rejected, ProjectUnresolved, None);
      (Replay(r), rows[c.id := Entry(c, Some(r), None, "", false)])
    else (Claimed, rows[c.id := Entry(c, None, None, "", false)])
  }

  // NodeJournal.SaveLifecycle
  function Save(rows: Rows, id: string, r: Receipt): Option<Rows> {
    if id !in rows || rows[id].result.Some? || !Advance(rows[id].receipt, r, rows[id].command)
      || Fenced(rows, rows[id].command, r.handle.target.incarnation)
      || Different(rows[id].pin, r.handle.target.incarnation)
    then None
    else Some(rows[id := rows[id].(receipt := Some(r), pin := r.handle.target.incarnation)])
  }

  // NodeJournal.PinAgentCommand
  function Pin(rows: Rows, id: string, incarnation: string): Option<Rows> {
    if id !in rows || rows[id].result.Some? || !rows[id].command.body.ControlBody?
      || Fenced(rows, rows[id].command, incarnation)
      || !Incarnation(incarnation) || Different(BodySession(rows[id].command.body).1, incarnation)
      || Different(rows[id].pin, incarnation)
    then None
    else Some(rows[id := rows[id].(pin := incarnation)])
  }

  // NodeJournal.Complete
  function Complete(rows: Rows, r: Result): Option<Rows> {
    if r.id !in rows || !ResultFor(r, rows[r.id].command) then None
    else
      var e := rows[r.id];
      if IsLifecycle(e.command.body) && (!DeliverableResult(r) || e.receipt != r.receipt) then None
      else if e.result.Some? then (if e.result.value == r then Some(rows) else None)
      else Some(WithResult(rows, r.id, r))
  }

  // NodeJournal.Acknowledge
  function Acknowledge(rows: Rows, id: string, status: Status): Option<Rows> {
    if id !in rows || rows[id].result.None? || rows[id].result.value.status != status then None
    else Some(rows[id := rows[id].(delivered := true)])
  }

  // NodeJournal.Recover
  function Recover(rows: Rows): Rows {
    map id | id in rows ::
      if rows[id].result.Some? then rows[id]
      else rows[id].(result := Some(Recovered(rows[id].command, rows[id].receipt)), delivered := false)
  }

  /******* What every operation keeps *******/

  datatype Op =
    | ClaimOp(command: Command)
    | SaveOp(id: string, receipt: Receipt)
    | PinOp(id: string, incarnation: string)
    | CompleteOp(result: Result)
    | AcknowledgeOp(id: string, status: Status)
    | RecoverOp

  function Else(next: Option<Rows>, rows: Rows): Rows {
    if next.Some? then next.value else rows
  }

  // A refused operation leaves the journal as it was.
  function Apply(rows: Rows, op: Op): Rows {
    match op
    case ClaimOp(c) => Claim(rows, c).1
    case SaveOp(id, r) => Else(Save(rows, id, r), rows)
    case PinOp(id, i) => Else(Pin(rows, id, i), rows)
    case CompleteOp(r) => Else(Complete(rows, r), rows)
    case AcknowledgeOp(id, s) => Else(Acknowledge(rows, id, s), rows)
    case RecoverOp => Recover(rows)
  }

  predicate AddressedTo(op: Op, node: string) {
    op.ClaimOp? ==> ValidCommand(op.command, node)
  }

  // Rows are never dropped, a command never changes, and neither does a result once it is stored.
  predicate Grows(a: Rows, b: Rows) {
    forall id | id in a :: id in b && EntryGrows(a[id], b[id])
  }

  predicate EntryGrows(a: Entry, b: Entry) {
    && b.command == a.command
    && (a.result.Some? ==> b.result == a.result && b.receipt == a.receipt)
    && (a.pin != "" ==> b.pin == a.pin)
    && (a.receipt.Some? ==> b.receipt.Some? && Extends(a.receipt.value, b.receipt.value))
  }

  // No two starts with open outcomes share a workspace of one native incarnation.
  predicate Separate(rows: Rows) {
    forall a, b | a in rows && b in rows && a != b :: StartsApart(rows[a], rows[b])
  }

  predicate StartsApart(a: Entry, b: Entry) {
    && Unresolved(a) && Unresolved(b) && a.command.body.StartBody? && b.command.body.StartBody?
    && a.command.target == b.command.target
    && a.command.body.start.workspace == b.command.body.start.workspace
    ==> Different(KnownIncarnation(a.command, a.receipt), KnownIncarnation(b.command, b.receipt))
  }

  lemma RecoveredFits(c: Command, e: Entry, id: string, node: string)
    requires ValidEntry(id, e, node) && SameCommand(e.command, c)
    ensures Recovered(c, e.receipt) == Recovered(e.command, e.receipt)
    ensures ResultFor(Recovered(e.command, e.receipt), e.command)
    ensures IsLifecycle(c.body) ==> Recovered(c, e.receipt).receipt == e.receipt
  {
    if IsLifecycle(c.body) { RecoveryIsAccepted(e.command, e.receipt); }
  }

  // One row is written.
  lemma PutKeepsRows(rows: Rows, id: string, e: Entry, node: string)
    requires ValidRows(rows, node) && ValidEntry(id, e, node) && (id in rows ==> EntryGrows(rows[id], e))
    ensures ValidRows(rows[id := e], node) && Grows(rows, rows[id := e])
  {
    hide ValidEntry, Extends;
    forall k | k in rows && k != id ensures EntryGrows(rows[k], rows[id := e][k]) {
      if rows[k].receipt.Some? { ExtendsReflexive(rows[k].receipt.value); }
    }
  }

  lemma ClaimKeepsRows(rows: Rows, c: Command, node: string)
    requires ValidRows(rows, node) && ValidCommand(c, node)
    ensures ValidRows(Claim(rows, c).1, node) && Grows(rows, Claim(rows, c).1)
  {
    hide ValidCommand, ValidReceipt, Recovered, Fenced, ValidRows, Grows;
    var (reply, next) := Claim(rows, c);
    if c.id !in rows && !reply.Full? {
      assert ValidEntry(c.id, next[c.id], node);
      PutKeepsRows(rows, c.id, next[c.id], node);
    } else if c.id in rows && reply.Replay? && rows[c.id].result.None? {
      EntryOf(rows, c.id, node);
      RecoveredFits(c, rows[c.id], c.id, node);
      PutKeepsRows(rows, c.id, next[c.id], node);
    } else {
      GrowsReflexive(rows);
    }
  }

  lemma EntryOf(rows: Rows, id: string, node: string)
    requires ValidRows(rows, node) && id in rows
    ensures ValidEntry(id, rows[id], node)
    ensures rows[id].receipt.Some? ==> Extends(rows[id].receipt.value, rows[id].receipt.value)
  {
  }

  lemma SaveKeepsRows(rows: Rows, id: string, r: Receipt, node: string)
    requires ValidRows(rows, node) && Save(rows, id, r).Some?
    ensures ValidRows(Save(rows, id, r).value, node) && Grows(rows, Save(rows, id, r).value)
  {
    hide ValidCommand, ReceiptSize, StageHistory, Summarizes, Evidence, HandleOf;
    assert ValidEntry(id, rows[id], node);
    if rows[id].receipt.Some? {
      assert rows[id].receipt.value.handle.target.incarnation == r.handle.target.incarnation;
    }
  }

  lemma RecoverKeepsRows(rows: Rows, node: string)
    requires ValidRows(rows, node)
    ensures ValidRows(Recover(rows), node) && Grows(rows, Recover(rows))
  {
    hide ValidCommand, ValidReceipt, Recovered;
    forall id | id in rows && rows[id].result.None? ensures ValidEntry(id, Recover(rows)[id], node) {
      RecoveredFits(rows[id].command, rows[id], id, node);
    }
  }

  // A pin, a result or an acknowledgement.
  lemma MarksKeepRows(rows: Rows, op: Op, node: string)
    requires ValidRows(rows, node) && (op.PinOp? || op.CompleteOp? || op.AcknowledgeOp?)
    ensures ValidRows(Apply(rows, op), node) && Grows(rows, Apply(rows, op))
  {
    hide ValidCommand, ValidReceipt, ValidResult, DeliverableResult, Fenced, Extends, ValidRows, Grows;
    GrowsReflexive(rows);
    var id := if op.CompleteOp? then op.result.id else op.id;
    var next := Apply(rows, op);
    if next != rows {
      EntryOf(rows, id, node);
      PutKeepsRows(rows, id, next[id], node);
    }
  }

  /** Whatever is asked of the journal, in whatever order: rows are never dropped, their commands
      never change, results are final, checkpoints only advance, and all of it stays valid. */
  lemma ApplyKeepsRows(rows: Rows, op: Op, node: string)
    requires ValidRows(rows, node) && AddressedTo(op, node)
    ensures ValidRows(Apply(rows, op), node) && Grows(rows, Apply(rows, op))
  {
    hide ValidCommand, Claim, Save, Pin, Complete, Acknowledge, Recover, ValidRows, Grows;
    GrowsReflexive(rows);
    match op {
      case ClaimOp(c) => ClaimKeepsRows(rows, c, node);
      case SaveOp(id, r) => if Save(rows, id, r).Some? { SaveKeepsRows(rows, id, r, node); }
      case RecoverOp => RecoverKeepsRows(rows, node);
      case _ => MarksKeepRows(rows, op, node);
    }
  }

  lemma PutKeepsSeparate(rows: Rows, id: string, e: Entry)
    requires Separate(rows)
    requires forall k | k in rows && k != id :: StartsApart(rows[k], e) && StartsApart(e, rows[k])
    ensures Separate(rows[id := e])
  {
    hide StartsApart;
  }

  lemma ClaimKeepsSeparate(rows: Rows, c: Command, node: string)
    requires ValidRows(rows, node) && Separate(rows)
    ensures Separate(Claim(rows, c).1)
  {
    hide ValidRows, Fenced, Recovered, ProjectFenced, Separate;
    var (reply, next) := Claim(rows, c);
    if c.id in rows {
      if next != rows {
        forall k | k in rows && k != c.id
          ensures StartsApart(rows[k], next[c.id]) && StartsApart(next[c.id], rows[k])
        {
          SeparateOf(rows, k, c.id);
        }
        PutKeepsSeparate(rows, c.id, next[c.id]);
      }
    } else if !reply.Full? {
      forall k | k in rows ensures StartsApart(rows[k], next[c.id]) && StartsApart(next[c.id], rows[k]) {
        NewRowIsApart(rows, c, node, k);
      }
      PutKeepsSeparate(rows, c.id, next[c.id]);
    }
  }

  // A command is only claimed when no unresolved start stands in its way, and a refused one is
  // resolved at once.
  lemma NewRowIsApart(rows: Rows, c: Command, node: string, k: string)
    requires ValidRows(rows, node) && c.id !in rows && k in rows && !Claim(rows, c).0.Full?
    ensures var e := Claim(rows, c).1[c.id]; StartsApart(rows[k], e) && StartsApart(e, rows[k])
  {
    hide ValidRows, ValidEntry, StartsApart, Conflicts, ProjectFenced, Recovered;
    var (reply, next) := Claim(rows, c);
    EntryOf(rows, k, node);
    if reply.Claimed? {
      assert !Conflicts(rows[k], c, KnownIncarnation(c, None));
      NoConflictIsApart(k, rows[k], c, node);
    } else {
      ResolvedIsApart(rows[k], next[c.id]);
    }
  }

  lemma NoConflictIsApart(id: string, e: Entry, c: Command, node: string)
    requires ValidEntry(id, e, node) && id != c.id && !Conflicts(e, c, KnownIncarnation(c, None))
    ensures var open := Entry(c, None, None, "", false); StartsApart(e, open) && StartsApart(open, e)
  {
    hide ValidCommand, ValidReceipt, ResultFor;
  }

  lemma ResolvedIsApart(a: Entry, b: Entry)
    requires !Unresolved(b)
    ensures StartsApart(a, b) && StartsApart(b, a)
  {
  }

  lemma SeparateOf(rows: Rows, a: string, b: string)
    requires Separate(rows) && a in rows && b in rows && a != b
    ensures StartsApart(rows[a], rows[b]) && StartsApart(rows[b], rows[a])
  {
  }

  lemma SaveKeepsSeparate(rows: Rows, id: string, r: Receipt, node: string)
    requires ValidRows(rows, node) && Separate(rows) && Save(rows, id, r).Some?
    ensures Separate(Save(rows, id, r).value)
  {
    hide ValidCommand, ValidReceipt, ValidResult, ResultFor, Advance, Separate;
    var scope := r.handle.target.incarnation;
    var next := Save(rows, id, r).value;
    SavedIncarnation(rows, id, r);
    forall k | k in rows && k != id ensures StartsApart(next[id], rows[k]) && StartsApart(rows[k], next[id]) {
      assert ValidEntry(k, rows[k], node) && ValidEntry(id, rows[id], node);
      assert !Conflicts(rows[k], rows[id].command, scope);
    }
    PutKeepsSeparate(rows, id, next[id]);
  }

  // A checkpoint always names the incarnation it is pinned to.
  lemma SavedIncarnation(rows: Rows, id: string, r: Receipt)
    requires Save(rows, id, r).Some?
    ensures r.handle.target.incarnation != ""
  {
  }

  /** Native effects with open outcomes stay apart: no operation ever lets two unresolved starts
      share a workspace of one session incarnation. */
  lemma ApplyKeepsSeparate(rows: Rows, op: Op, node: string)
    requires ValidRows(rows, node) && Separate(rows)
    ensures Separate(Apply(rows, op))
  {
    hide ValidCommand, ValidReceipt, ValidResult, DeliverableResult, Fenced, Advance, ResultFor, Recovered;
    match op {
      case ClaimOp(c) => ClaimKeepsSeparate(rows, c, node);
      case SaveOp(id, r) => if Save(rows, id, r).Some? { SaveKeepsSeparate(rows, id, r, node); }
      case _ =>
    }
  }

  /******* Any sequence of operations *******/

  function Run(rows: Rows, ops: seq<Op>): Rows {
    if ops == [] then rows else Apply(Run(rows, ops[..|ops| - 1]), ops[|ops| - 1])
  }

  lemma GrowsTransitive(a: Rows, b: Rows, c: Rows)
    requires Grows(a, b) && Grows(b, c)
    ensures Grows(a, c)
  {
    forall id | id in a && a[id].receipt.Some? ensures Extends(a[id].receipt.value, c[id].receipt.value) {
      ExtendsTransitive(a[id].receipt.value, b[id].receipt.value, c[id].receipt.value);
    }
  }

  lemma {:induction false} RunKeepsRows(rows: Rows, ops: seq<Op>, i: nat, node: string)
    requires ValidRows(rows, node) && Separate(rows) && i <= |ops|
    requires forall k | 0 <= k < |ops| :: AddressedTo(ops[k], node)
    ensures ValidRows(Run(rows, ops), node) && Separate(Run(rows, ops))
    ensures Grows(Run(rows, ops[..i]), Run(rows, ops))
    decreases |ops|
  {
    hide ValidRows, Separate, Grows, Apply;
    if i == |ops| {
      assert ops[..i] == ops;
      GrowsReflexive(Run(rows, ops));
    }
    if ops != [] {
      var before := ops[..|ops| - 1];
      RunKeepsRows(rows, before, if i < |ops| then i else 0, node);
      ApplyKeepsRows(Run(rows, before), ops[|ops| - 1], node);
      ApplyKeepsSeparate(Run(rows, before), ops[|ops| - 1], node);
      if i < |ops| {
        assert before[..i] == ops[..i];
        GrowsTransitive(Run(rows, ops[..i]), Run(rows, before), Run(rows, ops));
      }
    }
  }

  lemma GrowsReflexive(a: Rows)
    ensures Grows(a, a)
  {
  }

  // One operation in the middle of a run, and the run after it.
  lemma StepInRun(rows: Rows, ops: seq<Op>, i: nat, j: nat, node: string)
    requires ValidRows(rows, node) && Separate(rows)
    requires forall k | 0 <= k < |ops| :: AddressedTo(ops[k], node)
    requires i < j <= |ops|
    ensures ValidRows(Run(rows, ops[..i]), node)
    ensures Grows(Apply(Run(rows, ops[..i]), ops[i]), Run(rows, ops[..j]))
  {
    hide ValidRows, Separate, Grows, Apply;
    RunKeepsRows(rows, ops[..i], 0, node);
    RunKeepsRows(rows, ops[..j], i + 1, node);
    assert ops[..i + 1][..i] == ops[..i];
    assert ops[..j][..i + 1] == ops[..i + 1];
  }

  /** A command is claimed at most once, ever: over any sequence of operations only one delivery of
      an id is granted to an executor. */
  lemma ClaimedAtMostOnce(rows: Rows, ops: seq<Op>, i: nat, j: nat, node: string)
    requires ValidRows(rows, node) && Separate(rows)
    requires forall k | 0 <= k < |ops| :: AddressedTo(ops[k], node)
    requires i < j < |ops| && ops[i].ClaimOp? && ops[j].ClaimOp? && ops[i].command.id == ops[j].command.id
    requires Claim(Run(rows, ops[..i]), ops[i].command).0.Claimed?
    ensures !Claim(Run(rows, ops[..j]), ops[j].command).0.Claimed?
  {
    hide Run, ValidRows, Separate, AddressedTo, Fenced, ProjectFenced, Recovered;
    StepInRun(rows, ops, i, j, node);
  }

  lemma AnsweredFrom(rows: Rows, c: Command)
    requires Claim(rows, c).0.Replay?
    ensures var next := Claim(rows, c).1;
            c.id in next && next[c.id].result == Some(Claim(rows, c).0.result) && SameCommand(next[c.id].command, c)
  {
    hide Fenced, ProjectFenced, Recovered;
  }

  /** Replays agree: once a delivery has been answered with a result, every later delivery of the
      same command is answered with the same one. */
  lemma ReplaysAgree(rows: Rows, ops: seq<Op>, i: nat, j: nat, node: string)
    requires ValidRows(rows, node) && Separate(rows)
    requires forall k | 0 <= k < |ops| :: AddressedTo(ops[k], node)
    requires i < j < |ops| && ops[i].ClaimOp? && ops[j].ClaimOp? && SameCommand(ops[i].command, ops[j].command)
    requires Claim(Run(rows, ops[..i]), ops[i].command).0.Replay?
    ensures Claim(Run(rows, ops[..j]), ops[j].command).0 == Claim(Run(rows, ops[..i]), ops[i].command).0
  {
    hide Run, ValidRows, Separate, AddressedTo, Fenced, ProjectFenced, Recovered;
    StepInRun(rows, ops, i, j, node);
    AnsweredFrom(Run(rows, ops[..i]), ops[i].command);
  }
}
