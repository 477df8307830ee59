/** The whole pipeline as a step machine: clients submit, the coordinator admits and dispatches,
    the wire repeats deliveries, nodes claim, execute, crash and recover, and results flow back.
    A run is any finite sequence of steps; a step whose guard fails changes nothing.
 */
module Mesh {
  import opened Messages
  import opened Receipts
  import opened Outcomes
  import opened Histories
  import opened Traces
  import opened Requests
  import opened Coordinator
  import R = Records
  import J = Journal
  import H = Handler
  import E = Execution
  import C = Courses
  import D = Admission

  // One execution of a lifecycle command: everything it will commit and send, and how much of that
  // it has done.  What an execution may do is what lifecycleMutation may do from a fresh start: it
  // knows nothing of other executions, of the same command or of others.
  datatype Execution = Execution(id: string, trace: seq<Event>, done: nat)

  // A node's durable journal, and the executions its process was granted.
  datatype Node = Node(rows: J.Rows, running: seq<Execution>)

  // audits are the audits of the store's records, by command id.
  // wire holds every command message ever sent: it may still be delivered, any number of times.
  // logs tell, per command id, what all its executions together committed and sent, in order.
  datatype World = World(store: Store, audits: map<string, R.Audit>, wire: set<Command>, nodes: map<string, Node>,
                         logs: map<string, seq<Event>>)

  const Start := World(Empty, map[], {}, map[], map[])

  datatype Step =
    | JoinStep(node: string)
    | SubmitStep(request: Request, view: View)
    | DispatchStep(id: string, now: int, ttl: int)
    | RecordStep(id: string, op: R.Op)
    | DeliverStep(node: string, command: Command, trace: seq<Event>)
    | ActStep(node: string, execution: nat)
    | CompleteStep(node: string, result: Result)
    | CrashStep(node: string)
    | ReportStep(node: string, id: string)

  function WithRecord(s: Store, r: Record): Store {
    s.(records := s.records[r.command.id := r])
  }

  function Log(w: World, id: string): seq<Event> {
    if id in w.logs then w.logs[id] else []
  }

  // A node joins with an empty journal.
  function Join(w: World, n: string): World {
    if n in w.nodes then w else w.(nodes := w.nodes[n := Node(map[], [])])
  }

  function Submitted(w: World, request: Request, v: View): World {
    if KeysAgree(w.store) then w.(store := Submit(w.store, request, v).1) else w
  }

  // prepareCommand: the record runs before the command is on the wire, with the time that is left.
  function Dispatched(w: World, id: string, now: int, ttl: int): World {
    if id !in w.store.records || !ValidTtl(ttl) then w
    else
      match R.Dispatch(w.store.records[id], now)
      case None => w
      case Some((next, send)) =>
        w.(store := WithRecord(w.store, next),
           wire := if send then w.wire + {next.command.(ttl := ttl)} else w.wire)
  }

  predicate OwnChange(op: R.Op) {
    !op.DispatchOp? && !op.FinishOp?
  }

  // Rejection, loss, expiry, restart and progress.
  function Recorded(w: World, id: string, op: R.Op): World {
    if id !in w.store.records || !OwnChange(op) then w
    else w.(store := WithRecord(w.store, R.Step(w.store.records[id], op)))
  }

  // Any message on the wire reaches its node, again and again.  Whenever the journal claims the
  // command, another execution of it begins; what it will do is up to its environment.
  ghost function Delivered(w: World, n: string, c: Command, trace: seq<Event>): World {
    if n !in w.nodes || c !in w.wire || c.target != n || !WriteAhead(trace, c) then w
    else
      var (reply, rows) := J.Claim(w.nodes[n].rows, c);
      var granted := if reply.Claimed? && IsLifecycle(c.body) then [Execution(c.id, trace, 0)] else [];
      w.(nodes := w.nodes[n := Node(rows, w.nodes[n].running + granted)],
         logs := if c.id in w.nodes[n].rows || c.id in w.logs then w.logs else w.logs[c.id := []])
  }

  // The journal after an event, unless it refuses the checkpoint.
  function Written(rows: J.Rows, id: string, e: Event): Option<J.Rows> {
    if e.Saved? then J.Save(rows, id, e.receipt) else Some(rows)
  }

  // An execution does the next thing it has to do: it commits a checkpoint, as far as the journal
  // lets it, or it sends a native mutation.
  function Acted(w: World, n: string, i: nat): World {
    if n !in w.nodes || i >= |w.nodes[n].running| || w.nodes[n].running[i].done >= |w.nodes[n].running[i].trace| then w
    else
      var x := w.nodes[n].running[i];
      var e := x.trace[x.done];
      var rows := Written(w.nodes[n].rows, x.id, e);
      if rows.None? then w
      else
        w.(nodes := w.nodes[n := Node(rows.value, w.nodes[n].running[i := x.(done := x.done + 1)])],
           logs := w.logs[x.id := Log(w, x.id) + [e]])
  }

  // The command has no execution with something left to do.
  predicate Finished(running: seq<Execution>, id: string) {
    forall i | 0 <= i < |running| && running[i].id == id :: running[i].done == |running[i].trace|
  }

  function Completed(w: World, n: string, r: Result): World {
    if n !in w.nodes || !Finished(w.nodes[n].running, r.id) then w
    else
      match J.Complete(w.nodes[n].rows, r)
      case None => w
      case Some(rows) => w.(nodes := w.nodes[n := w.nodes[n].(rows := rows)])
  }

  // The process dies and the journal recovers before the node connects again.
  function Crashed(w: World, n: string): World {
    if n !in w.nodes then w else w.(nodes := w.nodes[n := Node(J.Recover(w.nodes[n].rows), [])])
  }

  // A stored result reaches the coordinator.
  function Reported(w: World, n: string, id: string): World {
    if n !in w.nodes || id !in w.nodes[n].rows || w.nodes[n].rows[id].result.None? then w
    else if id !in w.store.records || w.store.records[id].command.target != n then w
    else w.(store := WithRecord(w.store, R.Step(w.store.records[id], R.FinishOp(w.nodes[n].rows[id].result.value))))
  }

  // What a step does as long as the audit has room for it.
  ghost function Effect(w: World, step: Step): World {
    match step
    case JoinStep(n) => Join(w, n)
    case SubmitStep(request, v) => Submitted(w, request, v)
    case DispatchStep(id, now, ttl) => Dispatched(w, id, now, ttl)
    case RecordStep(id, op) => Recorded(w, id, op)
    case DeliverStep(n, c, trace) => Delivered(w, n, c, trace)
    case ActStep(n, i) => Acted(w, n, i)
    case CompleteStep(n, r) => Completed(w, n, r)
    case CrashStep(n) => Crashed(w, n)
    case ReportStep(n, id) => Reported(w, n, id)
  }

  function Audited(w: World, id: string): R.Audited
    requires id in w.store.records
  {
    R.Audited(w.store.records[id], if id in w.audits then w.audits[id] else [])
  }

  // transitionCommand refuses the whole transaction when it has to enter an outcome in a full audit.
  predicate Full(w: World, next: World) {
    exists id | id in w.store.records && id in next.store.records ::
      R.Revises(w.store.records[id], next.store.records[id]) && |Audited(w, id).audit| >= R.AuditCapacity
  }

  // Otherwise every change of outcome is entered, and an admission begins its own audit.
  function Noted(w: World, next: World): World {
    if Full(w, next) then w
    else
      next.(audits := map id | id in next.store.records ::
              if id in w.store.records then R.Entered(Audited(w, id), next.store.records[id]).audit
              else [(next.store.records[id].status, next.store.records[id].detail)])
  }

  ghost function Apply(w: World, step: Step): World {
    Noted(w, Effect(w, step))
  }

  ghost function Run(steps: seq<Step>): World {
    if steps == [] then Start else Apply(Run(steps[..|steps| - 1]), steps[|steps| - 1])
  }

  /******* The invariant *******/

  // The command is one the coordinator admitted and dispatched.
  predicate Backed(s: Store, c: Command) {
    && c.id in s.records && J.SameCommand(s.records[c.id].command, c) && ValidTtl(c.ttl)
    && !s.records[c.id].status.Accepted?
  }

  // An execution has done exactly what its command's log tells: no other execution ever did anything
  // for the command.
  ghost predicate Alone(rows: J.Rows, logs: map<string, seq<Event>>, x: Execution) {
    && x.id in rows && IsLifecycle(rows[x.id].command.body) && WriteAhead(x.trace, rows[x.id].command)
    && x.done <= |x.trace| && x.id in logs && logs[x.id] == x.trace[..x.done]
  }

  predicate OneEach(running: seq<Execution>) {
    forall i, j | 0 <= i < j < |running| :: running[i].id != running[j].id
  }

  ghost predicate NodeOk(s: Store, logs: map<string, seq<Event>>, n: string, node: Node) {
    && J.ValidRows(node.rows, n)
    && (forall id | id in node.rows :: Backed(s, node.rows[id].command))
    && H.Traced(node.rows, logs)
    && OneEach(node.running)
    && (forall i | 0 <= i < |node.running| :: Alone(node.rows, logs, node.running[i]))
  }

  function Row(w: World, id: string): Option<J.Entry> {
    if id in w.store.records && w.store.records[id].command.target in w.nodes
       && id in w.nodes[w.store.records[id].command.target].rows
    then Some(w.nodes[w.store.records[id].command.target].rows[id])
    else None
  }

  // A settled outcome is the node's stored result, unless the command never left the coordinator.
  predicate SettledFairly(w: World, id: string)
    requires id in w.store.records
  {
    var r := w.store.records[id];
    IsLifecycle(r.command.body) && R.Settled(r.status) ==>
      if Row(w, id).Some? then Row(w, id).value.result == Some(RecordResult(r))
      else r.status !in {Succeeded, Failed} && forall c | c in w.wire :: c.id != id
  }

  ghost predicate Base(w: World) {
    && ValidStore(w.store)
    && (forall c | c in w.wire :: Backed(w.store, c))
    && (forall n | n in w.nodes :: NodeOk(w.store, w.logs, n, w.nodes[n]))
    && (forall id | id in w.logs :: w.logs[id] == [] || Row(w, id).Some?)
  }

  ghost predicate Inv(w: World) {
    && Base(w)
    && (forall id | id in w.store.records :: SettledFairly(w, id))
  }

  // The invariant does not speak of the audits.
  lemma AuditsApart(w: World, audits: map<string, R.Audit>)
    requires Inv(w)
    ensures Inv(w.(audits := audits))
  {
    hide ValidStore, NodeOk, Backed;
    var w' := w.(audits := audits);
    assert forall id :: Row(w', id) == Row(w, id);
    forall id | id in w'.store.records ensures SettledFairly(w', id) {
      assert SettledFairly(w, id);
    }
  }

  // What the node has reported or will report: its stored result.
  function Verdict(w: World, id: string): Option<Result> {
    if Row(w, id).Some? then Row(w, id).value.result else None
  }

  // The audit explains the record, and there is room for every change that is still to come.
  predicate Roomy(w: World, id: string)
    requires id in w.store.records
  {
    && R.ValidAudit(Audited(w, id))
    && |Audited(w, id).audit| + R.ChangesLeft(w.store.records[id], Verdict(w, id)) <= 4
  }

  predicate AuditsOk(w: World) {
    && w.audits.Keys == w.store.records.Keys
    && forall id | id in w.store.records :: Roomy(w, id)
  }

  /******* Steps of the coordinator *******/

  predicate StoreGrows(a: Store, b: Store) {
    forall id | id in a.records :: id in b.records && R.RecordGrows(a.records[id], b.records[id])
  }

  lemma BackedIsValid(s: Store, c: Command)
    requires ValidStore(s) && Backed(s, c)
    ensures ValidCommand(c, c.target) && s.records[c.id].command.target == c.target
    ensures s.records[c.id].command.body == c.body
  {
    hide ValidBody, BodyFollows, Normalize, Token, ValidReceipt, ValidResult;
    assert ValidRecord(c.id, s.records[c.id]);
  }

  // A row is found through its record: it lives on the node the command was addressed to.
  lemma RowIsFound(w: World, n: string, id: string)
    requires Base(w) && n in w.nodes && id in w.nodes[n].rows
    ensures id in w.store.records && w.store.records[id].command.target == n
    ensures Row(w, id) == Some(w.nodes[n].rows[id])
    ensures J.SameCommand(w.store.records[id].command, w.nodes[n].rows[id].command)
  {
    hide ValidCommand, ValidRecord, KeysAgree, NamesUnique;
    assert NodeOk(w.store, w.logs, n, w.nodes[n]);
    J.EntryOf(w.nodes[n].rows, id, n);
    RowTarget(w.nodes[n].rows[id].command, n);
  }

  lemma RowTarget(c: Command, n: string)
    requires ValidCommand(c, n)
    ensures c.target == n
  {
  }

  lemma GrowingStoreKeepsBase(w: World, s: Store)
    requires Base(w) && ValidStore(s) && StoreGrows(w.store, s)
    ensures Base(w.(store := s))
    ensures forall id | id in w.store.records :: Row(w.(store := s), id) == Row(w, id)
    ensures forall id | id in s.records && id !in w.store.records :: Row(w.(store := s), id).None?
  {
    hide ValidCommand, ValidRecord, ValidStore, J.ValidRows, H.Traced;
    var w' := w.(store := s);
    forall c | Backed(w.store, c) ensures Backed(s, c) {
      assert R.RecordGrows(w.store.records[c.id], s.records[c.id]);
    }
    forall n | n in w'.nodes ensures NodeOk(s, w'.logs, n, w'.nodes[n]) {
      assert NodeOk(w.store, w.logs, n, w.nodes[n]);
    }
    forall id | id in w.store.records ensures Row(w', id) == Row(w, id) {
      assert R.RecordGrows(w.store.records[id], s.records[id]);
    }
    forall id | id in s.records && id !in w.store.records ensures Row(w', id).None? {
      if Row(w', id).Some? { RowIsFound(w, s.records[id].command.target, id); }
    }
  }

  // A record that was never dispatched is nowhere but in the store.
  lemma AcceptedStaysHome(w: World, id: string)
    requires Base(w) && id in w.store.records && w.store.records[id].status.Accepted?
    ensures Row(w, id).None? && forall c | c in w.wire :: c.id != id
  {
    hide ValidStore, J.ValidRows, H.Traced;
    if Row(w, id).Some? {
      var n := w.store.records[id].command.target;
      assert NodeOk(w.store, w.logs, n, w.nodes[n]);
      assert Backed(w.store, w.nodes[n].rows[id].command);
      J.EntryOf(w.nodes[n].rows, id, n);
    }
  }

  lemma SameCommandsAgree(s: Store, id: string, r: Record)
    requires KeysAgree(s) && NamesUnique(s.records) && id in s.records && r.command == s.records[id].command
    requires r.command.id == id
    ensures KeysAgree(WithRecord(s, r)) && NamesUnique(WithRecord(s, r).records)
  {
    hide SameName;
    var next := WithRecord(s, r).records;
    forall k | k in next ensures next[k].command == s.records[k].command {
    }
  }

  lemma WithRecordKeepsStore(s: Store, id: string, r: Record)
    requires ValidStore(s) && id in s.records && ValidRecord(id, r) && R.RecordGrows(s.records[id], r)
    ensures ValidStore(WithRecord(s, r)) && StoreGrows(s, WithRecord(s, r))
  {
    hide ValidRecord, KeysAgree, NamesUnique;
    RecordIdIs(id, r);
    SameCommandsAgree(s, id, r);
    StoreGrowsReflexive(s);
  }

  // A record changes; it may only become settled if that is fair.
  lemma RecordChangeKeepsInv(w: World, id: string, r: Record)
    requires Inv(w) && id in w.store.records && ValidRecord(id, r) && R.RecordGrows(w.store.records[id], r)
    requires R.Settled(r.status) && IsLifecycle(r.command.body) ==>
               || R.Settled(w.store.records[id].status)
               || (w.store.records[id].status.Accepted? && r.status !in {Succeeded, Failed})
               || (Row(w, id).Some? && Row(w, id).value.result == Some(RecordResult(r)))
    ensures Inv(w.(store := WithRecord(w.store, r)))
  {
    hide ValidRecord, ValidStore, NodeOk;
    var w' := w.(store := WithRecord(w.store, r));
    WithRecordKeepsStore(w.store, id, r);
    GrowingStoreKeepsBase(w, w'.store);
    RecordIdIs(id, r);
    forall k | k in w'.store.records ensures SettledFairly(w', k) {
      assert SettledFairly(w, k);
      if k == id && w.store.records[id].status.Accepted? { AcceptedStaysHome(w, id); }
    }
  }

  lemma RecordIdIs(id: string, r: Record)
    requires ValidRecord(id, r)
    ensures r.command.id == id
  {
  }

  lemma OwnChangesSettleFairly(r: Record, op: R.Op)
    requires OwnChange(op) && R.Settled(R.Step(r, op).status)
    ensures R.Settled(r.status) || (r.status.Accepted? && R.Step(r, op).status !in {Succeeded, Failed})
  {
    hide ValidResult, ValidReceipt, Advance;
  }

  lemma RecordedKeepsInv(w: World, id: string, op: R.Op)
    requires Inv(w)
    ensures Inv(Recorded(w, id, op))
  {
    hide ValidRecord, NodeOk, R.Step, SettledFairly, KeysAgree, NamesUnique;
    if id in w.store.records && OwnChange(op) {
      var r := w.store.records[id];
      R.StepKeepsRecord(id, r, op);
      if R.Settled(R.Step(r, op).status) { OwnChangesSettleFairly(r, op); }
      RecordChangeKeepsInv(w, id, R.Step(r, op));
    }
  }

  lemma SubmittedKeepsInv(w: World, request: Request, v: View)
    requires Inv(w)
    ensures Inv(Submitted(w, request, v))
  {
    hide ValidRecord, NodeOk, Submit, KeysAgree, NamesUnique;
    var s := Submit(w.store, request, v).1;
    SubmitKeepsStore(w.store, request, v);
    forall id | id in w.store.records ensures R.RecordGrows(w.store.records[id], s.records[id]) {
      if s.records[id].receipt.Some? { ExtendsReflexive(s.records[id].receipt.value); }
    }
    GrowingStoreKeepsBase(w, s);
    forall id | id in s.records ensures SettledFairly(w.(store := s), id) {
      if id in w.store.records {
        assert SettledFairly(w, id);
      } else {
        NewRecordsAreAccepted(w.store, request, v, id);
      }
    }
  }

  lemma NewRecordsAreAccepted(s: Store, request: Request, v: View, id: string)
    requires ValidStore(s) && id !in s.records && id in Submit(s, request, v).1.records
    ensures Submit(s, request, v).1.records[id].status.Accepted?
  {
    hide ValidRecord, ValidCommand, Normalize, Resolve, Build, SameRequest, Matching, NameTaken, Coordinator.Fenced;
    if Normalize(request).Some? { NormalizeIsIdempotent(request); }
  }

  lemma DispatchedKeepsInv(w: World, id: string, now: int, ttl: int)
    requires Inv(w)
    ensures Inv(Dispatched(w, id, now, ttl))
  {
    hide ValidRecord, NodeOk, SettledFairly, ValidStore, R.Dispatch;
    if id in w.store.records && ValidTtl(ttl) && R.Dispatch(w.store.records[id], now).Some? {
      var r := w.store.records[id];
      var (next, send) := R.Dispatch(r, now).value;
      StoredRecordIsValid(w.store, id);
      R.StepKeepsRecord(id, r, R.DispatchOp(now));
      DispatchOutcome(r, now);
      RecordChangeKeepsInv(w, id, next);
      var middle := w.(store := WithRecord(w.store, next));
      if send { SendKeepsInv(middle, id, ttl); }
    }
  }

  lemma StoredRecordIsValid(s: Store, id: string)
    requires ValidStore(s) && id in s.records
    ensures ValidRecord(id, s.records[id])
  {
  }

  lemma DispatchOutcome(r: Record, now: int)
    requires R.Dispatch(r, now).Some?
    ensures var (next, send) := R.Dispatch(r, now).value;
            && next == R.Step(r, R.DispatchOp(now))
            && (send ==> next.status == Running)
            && (R.Settled(next.status) ==> R.Settled(r.status) || (r.status.Accepted? && next.status == TimedOut))
            && next.command == r.command
  {
  }

  lemma SendKeepsInv(w: World, id: string, ttl: int)
    requires Inv(w) && id in w.store.records && w.store.records[id].status == Running && ValidTtl(ttl)
    ensures Inv(w.(wire := w.wire + {w.store.records[id].command.(ttl := ttl)}))
  {
    hide ValidCommand, NodeOk, KeysAgree, NamesUnique;
    var c := w.store.records[id].command.(ttl := ttl);
    var w' := w.(wire := w.wire + {c});
    assert ValidRecord(id, w.store.records[id]);
    forall k | k in w'.store.records ensures SettledFairly(w', k) {
      assert SettledFairly(w, k);
      assert Row(w', k) == Row(w, k);
    }
    forall k | k in w'.logs ensures w'.logs[k] == [] || Row(w', k).Some? {
      assert Row(w', k) == Row(w, k);
    }
  }

  /******* Steps of the nodes *******/

  // One node's journal grows, and the logs of its rows with it.
  lemma NodeChangeKeepsInv(w: World, n: string, node: Node, logs: map<string, seq<Event>>)
    requires Inv(w) && n in w.nodes
    requires NodeOk(w.store, logs, n, node) && J.Grows(w.nodes[n].rows, node.rows)
    requires forall id | id in w.logs :: id in logs
    requires forall id | id in logs && (id !in w.logs || logs[id] != w.logs[id]) :: logs[id] == [] || id in node.rows
    requires forall id | id in w.logs && logs[id] != w.logs[id] :: id in w.nodes[n].rows
    requires forall id | id in node.rows && id !in w.nodes[n].rows :: exists c | c in w.wire :: c.id == id
    ensures Inv(w.(nodes := w.nodes[n := node], logs := logs))
  {
    hide ValidRecord, KeysAgree, NamesUnique, J.ValidRows, H.Traced;
    var w' := w.(nodes := w.nodes[n := node], logs := logs);
    forall m | m in w'.nodes ensures NodeOk(w.store, logs, m, w'.nodes[m]) {
      if m != n { OtherNodeStays(w, n, m, logs); }
    }
    forall id | id in node.rows ensures Row(w', id) == Some(node.rows[id]) {
      NodeRowIsFound(w', n, id);
    }
    forall id | id in logs ensures logs[id] == [] || Row(w', id).Some? {
      if id in w.logs && logs[id] == w.logs[id] && logs[id] != [] { RowsStay(w, n, node, logs, id); }
    }
    forall id | id in w.store.records ensures SettledFairly(w', id) {
      assert SettledFairly(w, id);
      if Row(w, id).Some? {
        RowsStay(w, n, node, logs, id);
      } else if Row(w', id).Some? {
        NewRowIsOnWire(w, n, node, logs, id);
      }
    }
  }

  lemma NodeRowIsFound(w: World, n: string, id: string)
    requires n in w.nodes && NodeOk(w.store, w.logs, n, w.nodes[n]) && id in w.nodes[n].rows
    ensures Row(w, id) == Some(w.nodes[n].rows[id])
  {
    hide ValidCommand;
    J.EntryOf(w.nodes[n].rows, id, n);
    RowTarget(w.nodes[n].rows[id].command, n);
    assert Backed(w.store, w.nodes[n].rows[id].command);
  }

  // A row stays where it is, and keeps its result.
  lemma RowsStay(w: World, n: string, node: Node, logs: map<string, seq<Event>>, id: string)
    requires n in w.nodes && J.Grows(w.nodes[n].rows, node.rows) && Row(w, id).Some?
    ensures var after := Row(w.(nodes := w.nodes[n := node], logs := logs), id);
            after.Some? && (Row(w, id).value.result.Some? ==> after.value.result == Row(w, id).value.result)
  {
  }

  lemma NewRowIsOnWire(w: World, n: string, node: Node, logs: map<string, seq<Event>>, id: string)
    requires n in w.nodes && Row(w, id).None? && Row(w.(nodes := w.nodes[n := node], logs := logs), id).Some?
    requires forall id | id in node.rows && id !in w.nodes[n].rows :: exists c | c in w.wire :: c.id == id
    ensures exists c | c in w.wire :: c.id == id
  {
  }

  lemma OtherNodeStays(w: World, n: string, m: string, logs: map<string, seq<Event>>)
    requires Base(w) && n in w.nodes && m in w.nodes && m != n
    requires forall id | id in w.logs :: id in logs
    requires forall id | id in w.logs && logs[id] != w.logs[id] :: id in w.nodes[n].rows
    ensures NodeOk(w.store, logs, m, w.nodes[m])
  {
    hide ValidRecord, KeysAgree, NamesUnique, J.ValidRows, WriteAhead;
    assert NodeOk(w.store, w.logs, m, w.nodes[m]);
    forall id | id in w.nodes[m].rows && IsLifecycle(w.nodes[m].rows[id].command.body)
      ensures id in logs && logs[id] == w.logs[id]
    {
      RowIsFound(w, m, id);
      if id in w.nodes[n].rows { RowIsFound(w, n, id); }
    }
  }

  lemma NodeOf(w: World, n: string)
    requires Inv(w) && n in w.nodes
    ensures NodeOk(w.store, w.logs, n, w.nodes[n])
  {
  }

  lemma NewNodeIsOk(s: Store, logs: map<string, seq<Event>>, n: string)
    ensures NodeOk(s, logs, n, Node(map[], []))
  {
  }

  lemma JoinedKeepsInv(w: World, n: string)
    requires Inv(w)
    ensures Inv(Join(w, n))
  {
    hide ValidStore, Backed, NodeOk;
    if n !in w.nodes {
      var w' := Join(w, n);
      NewNodeIsOk(w.store, w.logs, n);
      forall m | m in w'.nodes ensures NodeOk(w.store, w.logs, m, w'.nodes[m]) {
        if m in w.nodes { NodeOf(w, m); }
      }
      forall id | id in w.store.records ensures SettledFairly(w', id) && Row(w', id) == Row(w, id) {
        assert SettledFairly(w, id);
      }
    }
  }

  lemma DeliveredKeepsInv(w: World, n: string, c: Command, trace: seq<Event>)
    requires Inv(w)
    ensures Inv(Delivered(w, n, c, trace))
  {
    hide ValidStore, ValidCommand, J.ValidRows, J.Claim, H.Traced, J.Grows, SettledFairly, WriteAhead, Backed, Alone,
         OneEach, Row;
    if n in w.nodes && c in w.wire && c.target == n && WriteAhead(trace, c) {
      var rows := w.nodes[n].rows;
      var (reply, next) := J.Claim(rows, c);
      NodeOf(w, n);
      BackedIsValid(w.store, c);
      J.ClaimKeepsRows(rows, c, n);
      H.ClaimKeepsTraced(rows, c, w.logs);
      H.ClaimOutcome(rows, c);
      ClaimedRows(rows, c);
      if c.id !in rows { NoRowNoLog(w, n, c); }
      var w' := Delivered(w, n, c, trace);
      assert w'.logs == if c.id in rows then w.logs else w.logs[c.id := []];
      GrantedStandAlone(w, n, c, trace);
      NodeChangeKeepsInv(w, n, w'.nodes[n], w'.logs);
    }
  }

  // A delivery that is granted is the first one: nothing was done for the command before.
  lemma GrantedStandAlone(w: World, n: string, c: Command, trace: seq<Event>)
    requires Base(w) && n in w.nodes && c in w.wire && c.target == n && WriteAhead(trace, c)
    ensures var node := Delivered(w, n, c, trace).nodes[n];
            && OneEach(node.running)
            && forall i | 0 <= i < |node.running| :: Alone(node.rows, Delivered(w, n, c, trace).logs, node.running[i])
  {
    hide ValidStore, ValidCommand, J.ValidRows, J.Claim, H.Traced, WriteAhead;
    var rows, running := w.nodes[n].rows, w.nodes[n].running;
    assert NodeOk(w.store, w.logs, n, w.nodes[n]);
    H.ClaimOutcome(rows, c);
    ClaimedRows(rows, c);
    if c.id !in rows { NoRowNoLog(w, n, c); }
    assert trace[..0] == [];
  }

  // A claim adds at most the claimed row, and keeps the other rows as they are.
  lemma ClaimedRows(rows: J.Rows, c: Command)
    ensures forall id | id in J.Claim(rows, c).1 ::
              || (id in rows && J.Claim(rows, c).1[id].command == rows[id].command)
              || (id == c.id && id !in rows && J.Claim(rows, c).1[id].command == c)
  {
    hide J.Fenced, J.ProjectFenced, Recovered;
  }

  lemma NoRowNoLog(w: World, n: string, c: Command)
    requires Base(w) && n in w.nodes && c in w.wire && c.target == n && c.id !in w.nodes[n].rows
    ensures c.id in w.logs ==> w.logs[c.id] == []
  {
    hide ValidStore, NodeOk;
    assert Backed(w.store, c);
    assert Row(w, c.id).None?;
  }

  // A row and its log move together.
  lemma ActedStaysTraced(rows: J.Rows, next: J.Rows, logs: map<string, seq<Event>>, id: string, e: Event)
    requires H.Traced(rows, logs) && id in rows && id in logs && WriteAhead(logs[id] + [e], rows[id].command)
    requires next.Keys == rows.Keys
    requires forall k | k in rows :: next[k].command == rows[k].command && (k != id ==> next[k] == rows[k])
    requires next[id].receipt == if e.Saved? then Some(e.receipt) else rows[id].receipt
    requires IsLifecycle(rows[id].command.body)
    ensures H.Traced(next, logs[id := logs[id] + [e]])
  {
    hide WriteAhead, Durable;
    if e.Saved? { AppendSaved(logs[id], e.receipt); } else { AppendDispatched(logs[id], e.stage); }
  }

  // The execution's own next event, after what the log tells so far.
  lemma NextIsTruthful(rows: J.Rows, logs: map<string, seq<Event>>, x: Execution)
    requires Alone(rows, logs, x) && x.done < |x.trace|
    ensures logs[x.id] + [x.trace[x.done]] == x.trace[..x.done + 1]
    ensures WriteAhead(logs[x.id] + [x.trace[x.done]], rows[x.id].command)
  {
    hide WriteAhead;
    WriteAheadPrefix(x.trace, rows[x.id].command, x.done + 1);
    assert x.trace[..x.done] + [x.trace[x.done]] == x.trace[..x.done + 1];
  }

  // One execution takes a step and the others stay alone.
  lemma OthersStayAlone(rows: J.Rows, next: J.Rows, logs: map<string, seq<Event>>, running: seq<Execution>, i: nat)
    requires i < |running| && running[i].done < |running[i].trace| && OneEach(running)
    requires running[i].id in logs && forall k | 0 <= k < |running| :: Alone(rows, logs, running[k])
    requires next.Keys == rows.Keys && forall k | k in rows :: next[k].command == rows[k].command
    ensures var x := running[i];
            var after := running[i := x.(done := x.done + 1)];
            && OneEach(after)
            && forall k | 0 <= k < |after| :: Alone(next, logs[x.id := logs[x.id] + [x.trace[x.done]]], after[k])
  {
    hide WriteAhead;
    var x := running[i];
    assert Alone(rows, logs, x);
    NextIsTruthful(rows, logs, x);
    var after := running[i := x.(done := x.done + 1)];
    forall k | 0 <= k < |after| ensures Alone(next, logs[x.id := logs[x.id] + [x.trace[x.done]]], after[k]) {
      assert Alone(rows, logs, running[k]);
      if k != i { assert running[k].id != x.id; }
    }
  }

  lemma WrittenRows(rows: J.Rows, id: string, e: Event, node: string)
    requires J.ValidRows(rows, node) && id in rows && Written(rows, id, e).Some?
    ensures var next := Written(rows, id, e).value;
            && J.ValidRows(next, node) && J.Grows(rows, next) && next.Keys == rows.Keys
            && (forall k | k in rows :: next[k].command == rows[k].command && (k != id ==> next[k] == rows[k]))
            && next[id].receipt == if e.Saved? then Some(e.receipt) else rows[id].receipt
  {
    hide J.ValidRows, J.Grows, J.Save;
    if e.Saved? {
      J.SaveKeepsRows(rows, id, e.receipt, node);
      SavedRows(rows, id, e.receipt);
    } else {
      J.GrowsReflexive(rows);
    }
  }

  lemma ActedKeepsInv(w: World, n: string, i: nat)
    requires Inv(w)
    ensures Inv(Acted(w, n, i))
  {
    hide ValidStore, J.ValidRows, H.Traced, WriteAhead, J.Grows, SettledFairly, Row, Inv, Written, Backed, OneEach;
    if Acted(w, n, i) != w {
      NodeOf(w, n);
      var rows, x := w.nodes[n].rows, w.nodes[n].running[i];
      assert Alone(rows, w.logs, x);
      var e := x.trace[x.done];
      var next := Written(rows, x.id, e).value;
      WrittenRows(rows, x.id, e, n);
      NextIsTruthful(rows, w.logs, x);
      ActedStaysTraced(rows, next, w.logs, x.id, e);
      OthersStayAlone(rows, next, w.logs, w.nodes[n].running, i);
      var w' := Acted(w, n, i);
      NodeChangeKeepsInv(w, n, w'.nodes[n], w'.logs);
    }
  }

  lemma SavedRows(rows: J.Rows, id: string, r: Receipt)
    requires J.Save(rows, id, r).Some?
    ensures var next := J.Save(rows, id, r).value;
            && next.Keys == rows.Keys && id in rows
            && (forall k | k in rows :: next[k].command == rows[k].command && (k != id ==> next[k] == rows[k]))
            && next[id].receipt == Some(r)
  {
  }

  lemma CompletedKeepsInv(w: World, n: string, r: Result)
    requires Inv(w)
    ensures Inv(Completed(w, n, r))
  {
    hide ValidStore, J.ValidRows, H.Traced, J.Complete, J.Grows, WriteAhead, SettledFairly, Row, OneEach;
    if n in w.nodes && Finished(w.nodes[n].running, r.id) && J.Complete(w.nodes[n].rows, r).Some? {
      var rows := w.nodes[n].rows;
      var next := J.Complete(rows, r).value;
      NodeOf(w, n);
      CompletedRows(rows, r);
      J.ApplyKeepsRows(rows, J.CompleteOp(r), n);
      H.TracedStays(rows, next, w.logs);
      NodeChangeKeepsInv(w, n, w.nodes[n].(rows := next), w.logs);
    }
  }

  lemma CompletedRows(rows: J.Rows, r: Result)
    requires J.Complete(rows, r).Some?
    ensures var next := J.Complete(rows, r).value;
            && next.Keys == rows.Keys
            && forall k | k in rows :: next[k].command == rows[k].command && next[k].receipt == rows[k].receipt
    ensures J.Complete(rows, r).value == J.Apply(rows, J.CompleteOp(r))
  {
  }

  lemma CrashedKeepsInv(w: World, n: string)
    requires Inv(w)
    ensures Inv(Crashed(w, n))
  {
    hide ValidStore, J.ValidRows, H.Traced, J.Grows;
    if n in w.nodes {
      var rows := w.nodes[n].rows;
      NodeOf(w, n);
      J.RecoverKeepsRows(rows, n);
      H.TracedStays(rows, J.Recover(rows), w.logs);
      NodeChangeKeepsInv(w, n, Node(J.Recover(rows), []), w.logs);
    }
  }

  lemma ReportedKeepsInv(w: World, n: string, id: string)
    requires Inv(w)
    ensures Inv(Reported(w, n, id))
  {
    hide ValidRecord, NodeOk, R.Step, SettledFairly, KeysAgree, NamesUnique;
    if n in w.nodes && id in w.nodes[n].rows && w.nodes[n].rows[id].result.Some?
      && id in w.store.records && w.store.records[id].command.target == n
    {
      var r, result := w.store.records[id], w.nodes[n].rows[id].result.value;
      R.StepKeepsRecord(id, r, R.FinishOp(result));
      ReportsSettleFairly(r, result);
      RecordChangeKeepsInv(w, id, R.Step(r, R.FinishOp(result)));
    }
  }

  lemma ReportsSettleFairly(r: Record, result: Result)
    ensures var next := R.Step(r, R.FinishOp(result));
            IsLifecycle(r.command.body) && R.Settled(next.status) ==>
              R.Settled(r.status) || RecordResult(next) == result
    ensures R.Step(r, R.FinishOp(result)).command == r.command
  {
    hide ValidResult, ValidReceipt, Advance;
  }

  lemma EffectKeepsInv(w: World, step: Step)
    requires Inv(w)
    ensures Inv(Effect(w, step))
  {
    hide Inv, Submitted, Dispatched, Recorded, Delivered, Acted, Completed, Crashed, Reported, Join;
    match step {
      case JoinStep(n) => JoinedKeepsInv(w, n);
      case SubmitStep(request, v) => SubmittedKeepsInv(w, request, v);
      case DispatchStep(id, now, ttl) => DispatchedKeepsInv(w, id, now, ttl);
      case RecordStep(id, op) => RecordedKeepsInv(w, id, op);
      case DeliverStep(n, c, trace) => DeliveredKeepsInv(w, n, c, trace);
      case ActStep(n, i) => ActedKeepsInv(w, n, i);
      case CompleteStep(n, r) => CompletedKeepsInv(w, n, r);
      case CrashStep(n) => CrashedKeepsInv(w, n);
      case ReportStep(n, id) => ReportedKeepsInv(w, n, id);
    }
  }

  lemma {:induction false} ReachableKeepsInv(steps: seq<Step>)
    ensures Inv(Run(steps)) && AuditsOk(Run(steps)) && D.EffectsApart(Run(steps).store.records)
  {
    hide Inv, AuditsOk, Effect, Full, D.EffectsApart;
    if steps == [] {
      StartHolds();
    } else {
      var w, step := Run(steps[..|steps| - 1]), steps[|steps| - 1];
      ReachableKeepsInv(steps[..|steps| - 1]);
      EffectKeepsInv(w, step);
      AuditsApart(Effect(w, step), Apply(w, step).audits);
      EffectKeepsAudits(w, step);
      EffectKeepsApart(w, step);
    }
  }

  lemma StartHolds()
    ensures Inv(Start) && AuditsOk(Start) && D.EffectsApart(Start.store.records)
  {
  }

  /******* No change is ever refused *******/

  // Results that are stored stay, so a record has no more changes to come than before.
  lemma VerdictsStay(w: World, next: World, id: string)
    requires id in w.store.records && id in next.store.records
    requires next.store.records[id].command == w.store.records[id].command
    requires forall n | n in w.nodes :: n in next.nodes && J.Grows(w.nodes[n].rows, next.nodes[n].rows)
    ensures Verdict(w, id).Some? ==> Verdict(next, id) == Verdict(w, id)
    ensures R.ChangesLeft(w.store.records[id], Verdict(next, id)) <= R.ChangesLeft(w.store.records[id], Verdict(w, id))
  {
  }

  // A step that leaves the records as they are.
  lemma SameRecordsKeepAudits(w: World, next: World)
    requires AuditsOk(w) && next.store == w.store && next.audits == w.audits
    requires forall n | n in w.nodes :: n in next.nodes && J.Grows(w.nodes[n].rows, next.nodes[n].rows)
    ensures !Full(w, next) && Noted(w, next) == next && AuditsOk(next)
  {
    hide R.ValidAudit, R.ChangesLeft, Verdict, J.Grows;
    assert Noted(w, next).audits == next.audits;
    forall id | id in next.store.records ensures Roomy(next, id) {
      assert Roomy(w, id);
      VerdictsStay(w, next, id);
    }
  }

  // What is entered for one record, and what its node has to say, when the nodes stay as they are.
  lemma NotedRecord(w: World, next: World, id: string)
    requires !Full(w, next) && next.nodes == w.nodes && id in w.store.records && id in next.store.records
    requires next.store.records[id].command == w.store.records[id].command
    ensures Audited(Noted(w, next), id) == R.Entered(Audited(w, id), next.store.records[id])
    ensures Verdict(Noted(w, next), id) == Verdict(w, id)
  {
    var w' := Noted(w, next);
    assert Row(w', id) == Row(w, id);
    assert R.Revises(w.store.records[id], next.store.records[id]) ==> |Audited(w, id).audit| < R.AuditCapacity;
  }

  // A record that did not change keeps its room.
  lemma UntouchedStaysRoomy(w: World, next: World, id: string)
    requires !Full(w, next) && next.nodes == w.nodes && id in w.store.records && id in next.store.records
    requires next.store.records[id] == w.store.records[id] && Roomy(w, id)
    ensures Roomy(Noted(w, next), id)
  {
    hide R.ValidAudit, R.ChangesLeft, Verdict, Full, Noted;
    NotedRecord(w, next, id);
  }

  // A change of one record that reports nothing but the stored result uses up some of its room.
  lemma ChangedStaysRoomy(w: World, next: World, id: string, op: R.Op)
    requires !Full(w, next) && next.nodes == w.nodes && id in w.store.records && id in next.store.records
    requires next.store.records[id] == R.Step(w.store.records[id], op) && ValidRecord(id, w.store.records[id])
    requires op.FinishOp? ==> Verdict(w, id) == Some(op.result)
    requires Roomy(w, id)
    ensures Roomy(Noted(w, next), id)
  {
    hide R.ValidAudit, R.ChangesLeft, R.Step, Verdict, Full, Noted, ValidRecord, R.ValidTransition, R.ValidOutcome;
    var r := w.store.records[id];
    R.StepKeepsRecord(id, r, op);
    R.SameCommand(r, R.Step(r, op));
    NotedRecord(w, next, id);
    R.ChangesAreTransitions(id, r, op, Verdict(w, id));
    R.NotedKeepsAudit(id, Audited(w, id), op);
  }

  // A step that changes one record.
  lemma RecordChangeKeepsAudits(w: World, id: string, op: R.Op, next: World)
    requires ValidStore(w.store) && AuditsOk(w) && id in w.store.records
    requires next.store == WithRecord(w.store, R.Step(w.store.records[id], op))
    requires next.nodes == w.nodes && next.audits == w.audits
    requires op.FinishOp? ==> Verdict(w, id) == Some(op.result)
    ensures !Full(w, next) && AuditsOk(Noted(w, next))
  {
    hide R.ValidAudit, R.ChangesLeft, R.Step, Verdict, ValidRecord, ValidStore;
    StoredRecordIsValid(w.store, id);
    R.StepKeepsRecord(id, w.store.records[id], op);
    RecordIdIs(id, R.Step(w.store.records[id], op));
    NothingFull(w, next);
    assert Roomy(w, id);
    ChangedStaysRoomy(w, next, id, op);
    forall k | k in next.store.records && k != id ensures Roomy(Noted(w, next), k) {
      assert Roomy(w, k);
      UntouchedStaysRoomy(w, next, k);
    }
  }

  // An audit of at most four entries is not full.
  lemma NothingFull(w: World, next: World)
    requires AuditsOk(w)
    ensures !Full(w, next)
  {
    hide R.ValidAudit, R.ChangesLeft, Verdict, R.Revises;
    forall id | id in w.store.records ensures |Audited(w, id).audit| < R.AuditCapacity {
      assert Roomy(w, id);
    }
  }

  // An admission begins an audit, and leaves the others as they are.
  lemma SubmittedKeepsAudits(w: World, request: Request, v: View)
    requires ValidStore(w.store) && AuditsOk(w)
    ensures var next := Submitted(w, request, v); !Full(w, next) && AuditsOk(Noted(w, next))
  {
    hide ValidRecord, NodeOk, Submit, KeysAgree, NamesUnique, R.ChangesLeft, Roomy, ValidStore, Full, Verdict;
    var next := Submitted(w, request, v);
    NothingFull(w, next);
    if KeysAgree(w.store) {
      SubmitKeepsStore(w.store, request, v);
    }
    var w' := Noted(w, next);
    forall id | id in w'.store.records ensures Roomy(w', id) {
      if id in w.store.records {
        UntouchedStaysRoomy(w, next, id);
      } else {
        NewRecordsAreAccepted(w.store, request, v, id);
        NewIsRoomy(w', id);
      }
    }
  }

  lemma NewIsRoomy(w: World, id: string)
    requires id in w.store.records && w.store.records[id].status.Accepted?
    requires Audited(w, id).audit == [(w.store.records[id].status, w.store.records[id].detail)]
    ensures Roomy(w, id)
  {
  }

  lemma RowsStand(w: World, next: World)
    requires next.nodes == w.nodes
    ensures forall n | n in w.nodes :: n in next.nodes && J.Grows(w.nodes[n].rows, next.nodes[n].rows)
  {
    hide J.Grows;
    forall n | n in w.nodes ensures J.Grows(w.nodes[n].rows, w.nodes[n].rows) {
      J.GrowsReflexive(w.nodes[n].rows);
    }
  }

  lemma OneNodeGrows(w: World, next: World, n: string, node: Node)
    requires next.nodes == w.nodes[n := node] && (n in w.nodes ==> J.Grows(w.nodes[n].rows, node.rows))
    ensures forall m | m in w.nodes :: m in next.nodes && J.Grows(w.nodes[m].rows, next.nodes[m].rows)
  {
    hide J.Grows;
    RowsStand(w, w);
  }

  predicate NodeStep(step: Step) {
    !step.SubmitStep? && !step.DispatchStep? && !step.RecordStep? && !step.ReportStep?
  }

  // The rows of the one node that takes the step.
  lemma DeliveryGrowsRows(w: World, n: string, c: Command)
    requires Inv(w) && n in w.nodes && c in w.wire && c.target == n
    ensures J.Grows(w.nodes[n].rows, J.Claim(w.nodes[n].rows, c).1)
  {
    hide J.Grows, J.Claim, J.ValidRows, ValidCommand, ValidStore, H.Traced, Alone, OneEach;
    NodeOf(w, n);
    BackedIsValid(w.store, c);
    J.ClaimKeepsRows(w.nodes[n].rows, c, n);
  }

  lemma ActionGrowsRows(w: World, n: string, i: nat)
    requires Inv(w) && Acted(w, n, i) != w
    ensures J.Grows(w.nodes[n].rows, Acted(w, n, i).nodes[n].rows)
  {
    hide Inv, J.Grows, J.ValidRows, Written, H.Traced, WriteAhead, Backed;
    NodeOf(w, n);
    var x := w.nodes[n].running[i];
    assert Alone(w.nodes[n].rows, w.logs, x);
    WrittenRows(w.nodes[n].rows, x.id, x.trace[x.done], n);
  }

  lemma NodeStepsGrowRows(w: World, step: Step)
    requires Inv(w) && NodeStep(step)
    ensures var next := Effect(w, step);
            && next.store == w.store && next.audits == w.audits
            && forall n | n in w.nodes :: n in next.nodes && J.Grows(w.nodes[n].rows, next.nodes[n].rows)
  {
    hide Inv, J.Grows, J.Claim, J.ValidRows, Written, J.Complete, J.Recover, WriteAhead, H.Traced, Backed, Alone,
         OneEach;
    var next := Effect(w, step);
    if next == w {
      RowsStand(w, next);
    } else {
      match step {
        case JoinStep(n) => OneNodeGrows(w, next, n, next.nodes[n]);
        case DeliverStep(n, c, trace) =>
          DeliveryGrowsRows(w, n, c);
          OneNodeGrows(w, next, n, next.nodes[n]);
        case ActStep(n, i) =>
          ActionGrowsRows(w, n, i);
          OneNodeGrows(w, next, n, next.nodes[n]);
        case CompleteStep(n, r) =>
          NodeOf(w, n);
          CompletedRows(w.nodes[n].rows, r);
          J.ApplyKeepsRows(w.nodes[n].rows, J.CompleteOp(r), n);
          OneNodeGrows(w, next, n, next.nodes[n]);
        case CrashStep(n) =>
          NodeOf(w, n);
          J.RecoverKeepsRows(w.nodes[n].rows, n);
          OneNodeGrows(w, next, n, next.nodes[n]);
        case _ =>
      }
    }
  }

  // A step of the coordinator on its records, and what it reports.
  lemma OneRecordChanges(w: World, step: Step) returns (id: string, op: R.Op)
    requires step.DispatchStep? || step.RecordStep? || step.ReportStep?
    ensures var next := Effect(w, step);
            && next.nodes == w.nodes && next.audits == w.audits
            && (next.store == w.store
                || (&& id in w.store.records && next.store == WithRecord(w.store, R.Step(w.store.records[id], op))
                    && (op.FinishOp? ==> Verdict(w, id) == Some(op.result))))
  {
    hide R.Step, R.Dispatch;
    id, op := step.id, R.LoseOp;
    match step {
      case DispatchStep(_, now, ttl) =>
        op := R.DispatchOp(now);
        if id in w.store.records && R.Dispatch(w.store.records[id], now).Some? {
          DispatchOutcome(w.store.records[id], now);
        }
      case RecordStep(_, own) => op := own;
      case ReportStep(n, _) => if Effect(w, step) != w { op := R.FinishOp(w.nodes[n].rows[id].result.value); }
    }
  }

  lemma StoreIsValid(w: World)
    requires Inv(w)
    ensures ValidStore(w.store)
  {
    hide ValidStore;
  }

  lemma EffectKeepsAudits(w: World, step: Step)
    requires Inv(w) && AuditsOk(w)
    ensures !Full(w, Effect(w, step)) && AuditsOk(Apply(w, step))
  {
    hide Inv, AuditsOk, Full, Noted, R.Step, J.Grows, Effect, ValidStore, Verdict;
    var next := Effect(w, step);
    StoreIsValid(w);
    if NodeStep(step) {
      NodeStepsGrowRows(w, step);
      SameRecordsKeepAudits(w, next);
    } else if step.SubmitStep? {
      SubmittedKeepsAudits(w, step.request, step.view);
      SubmissionEffect(w, step.request, step.view);
    } else {
      var id, op := OneRecordChanges(w, step);
      if next.store == w.store {
        RowsStand(w, next);
        SameRecordsKeepAudits(w, next);
      } else {
        RecordChangeKeepsAudits(w, id, op, next);
      }
    }
  }

  lemma EffectKeepsApart(w: World, step: Step)
    requires Inv(w) && D.EffectsApart(w.store.records)
    ensures D.EffectsApart(Effect(w, step).store.records)
  {
    hide Inv, Effect, ValidStore, D.EffectsApart, Submit, R.Step, Verdict, KeysAgree;
    StoreIsValid(w);
    if NodeStep(step) {
      NodeStepsGrowRows(w, step);
    } else if step.SubmitStep? {
      SubmissionEffect(w, step.request, step.view);
      D.SubmitKeepsApart(w.store, step.request, step.view);
    } else {
      var id, op := OneRecordChanges(w, step);
      if Effect(w, step).store != w.store {
        D.StepKeepsApart(w.store, id, op);
        R.StepKeepsRecord(id, w.store.records[id], op) by { StoredRecordIsValid(w.store, id); }
        RecordIdIs(id, R.Step(w.store.records[id], op)) by {
          StoredRecordIsValid(w.store, id);
          R.StepKeepsRecord(id, w.store.records[id], op);
        }
      }
    }
  }

  lemma SubmissionEffect(w: World, request: Request, v: View)
    ensures Effect(w, SubmitStep(request, v)) == Submitted(w, request, v)
  {
  }

  /** The audit's capacity never stands in the way: in every run each record's audit explains it in at
      most four entries, and no further step is refused for a full audit, because a node only ever
      reports the one result it has stored. */
  lemma NoChangeIsRefused(steps: seq<Step>, step: Step)
    ensures var w := Run(steps);
            && w.audits.Keys == w.store.records.Keys
            && (forall id | id in w.audits ::
                  R.ValidAudit(R.Audited(w.store.records[id], w.audits[id])) && |w.audits[id]| <= 4)
            && Apply(w, step) == Effect(w, step).(audits := Apply(w, step).audits)
  {
    hide Inv, Effect, R.ValidAudit, R.ChangesLeft, Full;
    var w := Run(steps);
    ReachableKeepsInv(steps);
    EffectKeepsAudits(w, step);
    forall id | id in w.audits ensures R.ValidAudit(Audited(w, id)) && |w.audits[id]| <= 4 {
      assert Roomy(w, id);
    }
  }

  /******* What every run keeps *******/

  /** End to end, whatever is retried, repeated, reordered, lost or restarted: for one agent name on
      one node and session, each of tab.create, agent.start and agent.prompt is sent at most once,
      over all commands of all clients together. */
  lemma EachStageAtMostOnce(steps: seq<Step>, a: string, b: string, i: nat, j: nat)
    requires var w := Run(steps);
             && a in w.store.records && b in w.store.records
             && SameName(w.store.records[a].command, w.store.records[b].command)
             && i < |Sent(Log(w, a))| && j < |Sent(Log(w, b))|
             && Sent(Log(w, a))[i] == Sent(Log(w, b))[j]
    ensures a == b && i == j
  {
    hide ValidRecord, KeysAgree, WriteAhead;
    var w := Run(steps);
    ReachableKeepsInv(steps);
    assert a == b;
    LogIsTruthful(w, a);
  }

  // A run that sent anything has a row, and tells the truth.
  lemma LogIsTruthful(w: World, id: string)
    requires Inv(w) && id in w.store.records && Log(w, id) != []
    ensures Row(w, id).Some? && IsLifecycle(Row(w, id).value.command.body) ==>
            Truthful(Log(w, id), Row(w, id).value.command)
    ensures Row(w, id).Some?
    ensures J.SameCommand(w.store.records[id].command, Row(w, id).value.command)
  {
    hide ValidRecord, KeysAgree, NamesUnique, WriteAhead, Truthful, J.ValidRows;
    var n := w.store.records[id].command.target;
    NodeOf(w, n);
    RowIsFound(w, n, id);
    if IsLifecycle(Row(w, id).value.command.body) { WriteAheadIsTruthful(w.logs[id], Row(w, id).value.command); }
  }

  /** Open effects stay apart, end to end: in every run, two starts in one workspace of a node, or
      texts or keys to one terminal of it, are never open at once in what may be one session. */
  lemma OpenEffectsStayApart(steps: seq<Step>, a: string, b: string)
    requires var records := Run(steps).store.records;
             && a in records && b in records && a != b
             && D.Unsettled(records[a]) && D.Unsettled(records[b])
             && records[a].command.target == records[b].command.target
    ensures var x, y := Run(steps).store.records[a], Run(steps).store.records[b];
            && (x.command.body.StartBody? && y.command.body.StartBody?
                && x.command.body.start.workspace == y.command.body.start.workspace ==>
                  D.Session(x) != "" && D.Session(y) != "" && D.Session(x) != D.Session(y))
            && (x.command.body.ControlBody? && y.command.body.ControlBody?
                && !x.command.body.control.action.InterruptAction? && !y.command.body.control.action.InterruptAction?
                && x.command.body.control.target.terminal == y.command.body.control.target.terminal ==>
                  D.Session(x) != "" && D.Session(y) != "" && D.Session(x) != D.Session(y))
  {
    hide Inv, AuditsOk, Run, D.Session, D.Unsettled;
    ReachableKeepsInv(steps);
  }

  /** Operator-visible honesty: what the coordinator's record settles on is true of the native
      effects.  Rejected, timed out and unavailable commands sent nothing, and never will; a
      succeeded one sent every stage it was asked for; a failed one confirmed all that it sent. */
  lemma SettledRecordsAreHonest(steps: seq<Step>, id: string)
    requires id in Run(steps).store.records && IsLifecycle(Run(steps).store.records[id].command.body)
    requires R.Settled(Run(steps).store.records[id].status)
    ensures var w := Run(steps);
            var r := w.store.records[id];
            && (r.status in {Rejected, TimedOut, Unavailable} ==> Sent(Log(w, id)) == [])
            && (r.status in {Succeeded, Failed} ==> Honest(RecordResult(r), Sent(Log(w, id)), r.command))
  {
    hide ValidRecord, KeysAgree, NamesUnique, WriteAhead, Truthful, J.ValidRows, Honest;
    var w := Run(steps);
    ReachableKeepsInv(steps);
    SettledIsHonest(w, id);
  }

  lemma SettledIsHonest(w: World, id: string)
    requires Inv(w) && id in w.store.records && IsLifecycle(w.store.records[id].command.body)
    requires R.Settled(w.store.records[id].status)
    ensures var r := w.store.records[id];
            && (r.status in {Rejected, TimedOut, Unavailable} ==> Sent(Log(w, id)) == [])
            && (r.status in {Succeeded, Failed} ==> Honest(RecordResult(r), Sent(Log(w, id)), r.command))
  {
    hide ValidRecord, KeysAgree, NamesUnique, WriteAhead, Truthful, J.ValidRows, H.Traced, J.ValidEntry;
    var r := w.store.records[id];
    assert SettledFairly(w, id);
    if Row(w, id).Some? {
      var n := r.command.target;
      NodeOf(w, n);
      RowIsFound(w, n, id);
      H.TracedResultIsHonest(w.nodes[n].rows, w.logs, id, n);
      ResultIsReported(w.nodes[n].rows, id, n);
      assert id in w.logs by { TracedHasLog(w.nodes[n].rows, w.logs, id); }
      HonestForSame(RecordResult(r), Sent(w.logs[id]), w.nodes[n].rows[id].command, r.command);
    }
  }

  // A node never reports that it is unavailable.
  lemma ResultIsReported(rows: J.Rows, id: string, n: string)
    requires J.ValidRows(rows, n) && id in rows && IsLifecycle(rows[id].command.body) && rows[id].result.Some?
    ensures !rows[id].result.value.status.Unavailable?
  {
    hide ValidCommand, ValidReceipt;
    J.EntryOf(rows, id, n);
  }

  lemma TracedHasLog(rows: J.Rows, logs: map<string, seq<Event>>, id: string)
    requires H.Traced(rows, logs) && id in rows && IsLifecycle(rows[id].command.body)
    ensures id in logs
  {
  }

  lemma HonestForSame(r: Result, sent: seq<Stage>, a: Command, b: Command)
    requires Honest(r, sent, a) && J.SameCommand(b, a)
    ensures Honest(r, sent, b)
    ensures r.status in {Rejected, TimedOut} ==> sent == []
  {
  }

  /******* Settled outcomes are final *******/

  lemma StoreGrowsReflexive(s: Store)
    ensures StoreGrows(s, s)
  {
    forall id | id in s.records ensures R.RecordGrows(s.records[id], s.records[id]) {
      if s.records[id].receipt.Some? { ExtendsReflexive(s.records[id].receipt.value); }
    }
  }

  lemma RecordStepGrows(s: Store, id: string, op: R.Op)
    requires ValidStore(s) && id in s.records
    ensures StoreGrows(s, WithRecord(s, R.Step(s.records[id], op)))
  {
    hide ValidRecord, KeysAgree, NamesUnique, R.Step, R.RecordGrows;
    StoredRecordIsValid(s, id);
    R.StepKeepsRecord(id, s.records[id], op);
    RecordIdIs(id, R.Step(s.records[id], op));
    StoreGrowsReflexive(s);
  }

  lemma EffectGrowsStore(w: World, step: Step)
    requires Inv(w)
    ensures StoreGrows(w.store, Effect(w, step).store)
  {
    hide ValidRecord, KeysAgree, NamesUnique, NodeOk, StoreGrows, Submit, R.Step, R.Dispatch, J.Claim, J.Save,
         J.Complete, SettledFairly, WriteAhead;
    StoreGrowsReflexive(w.store);
    match step {
      case SubmitStep(request, v) =>
        SubmitKeepsStore(w.store, request, v);
        KeptRecordsGrow(w.store, Submit(w.store, request, v).1);
      case DispatchStep(id, now, ttl) =>
        if id in w.store.records && R.Dispatch(w.store.records[id], now).Some? {
          DispatchOutcome(w.store.records[id], now);
          RecordStepGrows(w.store, id, R.DispatchOp(now));
        }
      case RecordStep(id, op) => if id in w.store.records { RecordStepGrows(w.store, id, op); }
      case ReportStep(n, id) =>
        if id in w.store.records && n in w.nodes && id in w.nodes[n].rows && w.nodes[n].rows[id].result.Some? {
          RecordStepGrows(w.store, id, R.FinishOp(w.nodes[n].rows[id].result.value));
        }
      case _ =>
    }
  }

  lemma ApplyGrowsStore(w: World, step: Step)
    requires Inv(w)
    ensures StoreGrows(w.store, Apply(w, step).store)
  {
    hide Inv, Effect, StoreGrows, Full;
    StoreGrowsReflexive(w.store);
    EffectGrowsStore(w, step);
  }

  lemma KeptRecordsGrow(s: Store, next: Store)
    requires forall id | id in s.records :: id in next.records && next.records[id] == s.records[id]
    ensures StoreGrows(s, next)
  {
    StoreGrowsReflexive(s);
  }

  /** A settled outcome is final: however the run goes on, the record stays as it is. */
  lemma {:induction false} SettledIsFinal(steps: seq<Step>, more: seq<Step>, id: string)
    requires id in Run(steps).store.records && R.Settled(Run(steps).store.records[id].status)
    ensures id in Run(steps + more).store.records
    ensures Run(steps + more).store.records[id] == Run(steps).store.records[id]
    decreases |more|
  {
    hide Inv, Apply, AuditsOk;
    if more == [] {
      assert steps + more == steps;
    } else {
      var before := more[..|more| - 1];
      SettledIsFinal(steps, before, id);
      assert (steps + more)[..|steps + more| - 1] == steps + before;
      ReachableKeepsInv(steps + before);
      ApplyGrowsStore(Run(steps + before), more[|more| - 1]);
    }
  }

  /******* The node's runs are runs of this machine *******/

  // Nothing keeps the execution from committing what it still has to: its row is open, and no other
  // unresolved effect of the node stands in the way.
  predicate Free(rows: J.Rows, x: Execution) {
    && x.id in rows && rows[x.id].result.None?
    && forall k | x.done <= k < |x.trace| && x.trace[k].Saved? ::
         !J.Fenced(rows, rows[x.id].command, x.trace[k].receipt.handle.target.incarnation)
  }

  // A command does not fence itself.
  lemma OwnRowIsNoFence(rows: J.Rows, e: J.Entry, c: Command, incarnation: string)
    requires e.command.id == c.id && (c.id in rows ==> rows[c.id].command.id == c.id)
    ensures J.Fenced(rows[c.id := e], c, incarnation) <==> J.Fenced(rows, c, incarnation)
  {
    var scope := if incarnation == "" then J.KnownIncarnation(c, None) else incarnation;
    var next := rows[c.id := e];
    forall id | id in next ensures J.Conflicts(next[id], c, scope) <==> id in rows && J.Conflicts(rows[id], c, scope) {
      if id == c.id { assert !J.Conflicts(e, c, scope); }
    }
    if J.Fenced(rows, c, incarnation) {
      var id :| id in rows && J.Conflicts(rows[id], c, scope);
      assert J.Conflicts(next[id], c, scope);
    }
  }

  // The journal takes the next checkpoint of a free execution.
  lemma NextIsSaved(rows: J.Rows, logs: map<string, seq<Event>>, x: Execution, node: string)
    requires J.ValidRows(rows, node) && H.Traced(rows, logs) && Alone(rows, logs, x) && Free(rows, x)
    requires x.done < |x.trace| && x.trace[x.done].Saved?
    ensures J.Save(rows, x.id, x.trace[x.done].receipt) ==
            Some(rows[x.id := rows[x.id].(receipt := Some(x.trace[x.done].receipt),
                                          pin := x.trace[x.done].receipt.handle.target.incarnation)])
  {
    hide ValidReceipt, WriteAhead, ValidCommand, ValidResult, Durable, J.Fenced;
    var c, r := rows[x.id].command, x.trace[x.done].receipt;
    J.EntryOf(rows, x.id, node);
    NextIsTruthful(rows, logs, x);
    WriteAheadIsTruthful(logs[x.id] + [Saved(r)], c);
    SavedAdvances(logs[x.id], r, c);
    assert Advance(rows[x.id].receipt, r, c);
  }

  lemma FreeIsWritten(rows: J.Rows, logs: map<string, seq<Event>>, x: Execution, node: string)
    requires J.ValidRows(rows, node) && H.Traced(rows, logs) && Alone(rows, logs, x) && Free(rows, x)
    requires x.done < |x.trace|
    ensures Written(rows, x.id, x.trace[x.done]).Some?
    ensures Free(Written(rows, x.id, x.trace[x.done]).value, x.(done := x.done + 1))
  {
    hide J.ValidRows, H.Traced, WriteAhead, J.Fenced, J.Save, J.ValidEntry;
    var e := x.trace[x.done];
    if e.Saved? {
      NextIsSaved(rows, logs, x, node);
      var next := rows[x.id].(receipt := Some(e.receipt), pin := e.receipt.handle.target.incarnation);
      RowId(rows, x.id, node);
      forall k | x.done <= k < |x.trace| && x.trace[k].Saved?
        ensures !J.Fenced(rows[x.id := next], rows[x.id].command, x.trace[k].receipt.handle.target.incarnation)
      {
        OwnRowIsNoFence(rows, next, rows[x.id].command, x.trace[k].receipt.handle.target.incarnation);
      }
    }
  }

  lemma RowId(rows: J.Rows, id: string, node: string)
    requires J.ValidRows(rows, node) && id in rows
    ensures rows[id].command.id == id
  {
  }

  // What an execution has come to.
  predicate Stands(w: World, n: string, i: nat, x: Execution, c: Command) {
    && n in w.nodes && i < |w.nodes[n].running| && w.nodes[n].running[i] == x
    && x.id == c.id && c.id in w.nodes[n].rows && w.nodes[n].rows[c.id].command == c
    && Free(w.nodes[n].rows, x)
  }

  /** At every point of an execution, its next event is a step of this machine: the step appends
      exactly this event to the log and leaves the row that the execution's trace leaves. */
  lemma NextEventIsAStep(w: World, n: string, i: nat, x: Execution, c: Command)
    requires Inv(w) && AuditsOk(w) && Stands(w, n, i, x, c) && x.done < |x.trace|
    ensures var w' := Apply(w, ActStep(n, i));
            && Inv(w') && Stands(w', n, i, x.(done := x.done + 1), c)
            && Log(w', c.id) == x.trace[..x.done + 1]
            && w'.nodes[n].rows[c.id].receipt == Durable(x.trace[..x.done + 1])
  {
    hide Inv, Base, ValidStore, J.ValidRows, H.Traced, WriteAhead, Durable, Written, Free, J.ValidEntry, Backed,
         OneEach;
    NodeOf(w, n);
    var rows := w.nodes[n].rows;
    assert Alone(rows, w.logs, x);
    FreeIsWritten(rows, w.logs, x, n);
    WrittenRows(rows, x.id, x.trace[x.done], n);
    NextIsTruthful(rows, w.logs, x);
    ActedKeepsInv(w, n, i);
    QuietStep(w, ActStep(n, i));
    var w' := Acted(w, n, i);
    NodeOf(w', n);
    RowFollowsLog(w'.nodes[n].rows, w'.logs, c.id);
  }

  // A step of a node touches no record, so there is nothing to enter.
  lemma QuietStep(w: World, step: Step)
    requires Inv(w) && AuditsOk(w) && (step.DeliverStep? || step.ActStep? || step.CompleteStep?)
    ensures Apply(w, step) == Effect(w, step)
  {
    hide Inv, AuditsOk, Full, Effect, J.Grows;
    NodeStepsGrowRows(w, step);
    SameRecordsKeepAudits(w, Effect(w, step));
  }

  lemma RowFollowsLog(rows: J.Rows, logs: map<string, seq<Event>>, id: string)
    requires H.Traced(rows, logs) && id in rows && IsLifecycle(rows[id].command.body)
    ensures id in logs && rows[id].receipt == Durable(logs[id])
  {
  }

  function Repeat(step: Step, k: nat): seq<Step> {
    seq(k, _ => step)
  }

  lemma RunNext(steps: seq<Step>, step: Step)
    ensures Run(steps + [step]) == Apply(Run(steps), step)
  {
    assert (steps + [step])[..|steps|] == steps;
  }

  // All that is left of an execution, step by step.
  lemma {:induction false} ExecutionIsReplayed(steps: seq<Step>, n: string, i: nat, x: Execution, c: Command, k: nat)
    requires Stands(Run(steps), n, i, x, c) && x.done + k <= |x.trace|
    requires Log(Run(steps), c.id) == x.trace[..x.done]
    requires Run(steps).nodes[n].rows[c.id].receipt == Durable(x.trace[..x.done])
    ensures var w' := Run(steps + Repeat(ActStep(n, i), k));
            && Stands(w', n, i, x.(done := x.done + k), c)
            && Log(w', c.id) == x.trace[..x.done + k]
            && w'.nodes[n].rows[c.id].receipt == Durable(x.trace[..x.done + k])
  {
    hide Inv, Apply, Stands, Durable;
    if k == 0 {
      assert steps + Repeat(ActStep(n, i), 0) == steps;
    } else {
      ExecutionIsReplayed(steps, n, i, x, c, k - 1);
      var before := steps + Repeat(ActStep(n, i), k - 1);
      ReachableKeepsInv(before);
      NextEventIsAStep(Run(before), n, i, x.(done := x.done + k - 1), c);
      RunNext(before, ActStep(n, i));
      assert before + [ActStep(n, i)] == steps + Repeat(ActStep(n, i), k);
    }
  }

  // A granted delivery begins an execution that stands where its trace begins.
  lemma GrantedStands(w: World, n: string, c: Command, trace: seq<Event>)
    requires Inv(w) && n in w.nodes && c in w.wire && c.target == n && IsLifecycle(c.body)
    requires J.Claim(w.nodes[n].rows, c).0.Claimed? && WriteAhead(trace, c)
    requires Free(J.Claim(w.nodes[n].rows, c).1, Execution(c.id, trace, 0))
    ensures var w' := Delivered(w, n, c, trace);
            && Inv(w') && Stands(w', n, |w.nodes[n].running|, Execution(c.id, trace, 0), c)
            && Log(w', c.id) == [] && w'.nodes[n].rows[c.id].receipt == None
  {
    hide ValidStore, J.ValidRows, H.Traced, WriteAhead, J.Claim, Free, NodeOk, Backed;
    H.ClaimOutcome(w.nodes[n].rows, c);
    NoRowNoLog(w, n, c);
    DeliveredKeepsInv(w, n, c, trace);
  }

  // The end of an execution: its result is stored.
  lemma ResultIsStored(w: World, n: string, i: nat, x: Execution, c: Command, r: Result)
    requires Inv(w) && Stands(w, n, i, x, c) && x.done == |x.trace| && IsLifecycle(c.body)
    requires ValidResult(r, c) && DeliverableResult(r) && r.receipt == w.nodes[n].rows[c.id].receipt
    ensures var w' := Completed(w, n, r);
            && n in w'.nodes && c.id in w'.nodes[n].rows && w'.logs == w.logs
            && w'.nodes[n].rows[c.id] == w.nodes[n].rows[c.id].(result := Some(r), delivered := false)
  {
    hide ValidStore, J.ValidRows, H.Traced, WriteAhead, ValidResult, DeliverableResult;
    NodeOf(w, n);
    ResultNames(r, c);
    var running := w.nodes[n].running;
    forall k | 0 <= k < |running| && running[k].id == r.id ensures running[k].done == |running[k].trace| {
      assert k == i;
    }
  }

  lemma ResultNames(r: Result, c: Command)
    requires ValidResult(r, c)
    ensures r.id == c.id
  {
  }

  /** Whatever lifecycleMutation does on a granted delivery, this machine does too: the delivery, each
      event of its trace in order, and the storing of its result are steps, and they leave the log
      and the row that the mutation leaves. */
  lemma MutationsAreRuns(steps: seq<Step>, n: string, c: Command, trace: seq<Event>, r: Result)
    returns (more: seq<Step>)
    requires var w := Run(steps);
             && n in w.nodes && c in w.wire && c.target == n && IsLifecycle(c.body)
             && J.Claim(w.nodes[n].rows, c).0.Claimed?
             && Free(J.Claim(w.nodes[n].rows, c).1, Execution(c.id, trace, 0))
    requires WriteAhead(trace, c) && ValidResult(r, c) && DeliverableResult(r) && r.receipt == Durable(trace)
    ensures var w' := Run(steps + more);
            && Log(w', c.id) == trace && n in w'.nodes && c.id in w'.nodes[n].rows
            && w'.nodes[n].rows[c.id].result == Some(r) && w'.nodes[n].rows[c.id].receipt == Durable(trace)
  {
    hide Inv, AuditsOk, Apply, Effect, WriteAhead, ValidResult, DeliverableResult, Stands, Free, Completed, Delivered,
         J.Claim, Durable;
    var w, x := Run(steps), Execution(c.id, trace, 0);
    var i := |w.nodes[n].running|;
    ReachableKeepsInv(steps);
    GrantedStands(w, n, c, trace);
    var granted := steps + [DeliverStep(n, c, trace)];
    RunNext(steps, DeliverStep(n, c, trace));
    QuietStep(w, DeliverStep(n, c, trace));
    AppliedDelivery(w, n, c, trace);
    assert trace[..0] == [] && trace[..|trace|] == trace;
    EmptyTraceIsWriteAhead(c);
    ExecutionIsReplayed(granted, n, i, x, c, |trace|);
    var acted := granted + Repeat(ActStep(n, i), |trace|);
    ReachableKeepsInv(acted);
    ResultIsStored(Run(acted), n, i, x.(done := |trace|), c, r);
    RunNext(acted, CompleteStep(n, r));
    QuietStep(Run(acted), CompleteStep(n, r));
    AppliedCompletion(Run(acted), n, r);
    more := [DeliverStep(n, c, trace)] + Repeat(ActStep(n, i), |trace|) + [CompleteStep(n, r)];
    assert acted + [CompleteStep(n, r)] == steps + more;
  }

  lemma AppliedDelivery(w: World, n: string, c: Command, trace: seq<Event>)
    ensures Effect(w, DeliverStep(n, c, trace)) == Delivered(w, n, c, trace)
  {
  }

  lemma AppliedCompletion(w: World, n: string, r: Result)
    ensures Effect(w, CompleteStep(n, r)) == Completed(w, n, r)
  {
  }

  /** The same for the mutation itself: on a delivery that the journal grants, the node's execution is
      a run of this machine whenever no other unresolved effect fences its checkpoints. */
  method MutateInMesh(ghost steps: seq<Step>, c: Command, node: string, setting: E.Setting, script: seq<C.Answer>)
    returns (finish: E.Finish, ghost trace: seq<Event>, ghost more: seq<Step>)
    requires ValidCommand(c, node) && IsLifecycle(c.body) && E.KnownSetting(setting) && C.KnownScript(script)
    requires var w := Run(steps);
             node in w.nodes && c in w.wire && c.target == node && J.Claim(w.nodes[node].rows, c).0.Claimed?
    ensures WriteAhead(trace, c)
    ensures finish.Finished? && Free(J.Claim(Run(steps).nodes[node].rows, c).1, Execution(c.id, trace, 0)) ==>
              var w' := Run(steps + more);
              && Log(w', c.id) == trace && node in w'.nodes && c.id in w'.nodes[node].rows
              && w'.nodes[node].rows[c.id].result == Some(finish.result)
              && w'.nodes[node].rows[c.id].receipt == finish.result.receipt
  {
    hide WriteAhead, ValidResult, DeliverableResult, ValidCommand, Free, J.Claim, E.KnownSetting, C.KnownScript, Honest;
    var row;
    ghost var refused;
    finish, row, trace, refused := E.LifecycleMutation(c, node, setting, script);
    more := [];
    if finish.Finished? && Free(J.Claim(Run(steps).nodes[node].rows, c).1, Execution(c.id, trace, 0)) {
      more := MutationsAreRuns(steps, node, c, trace, finish.result);
    }
  }
}
