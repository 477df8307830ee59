/** Uncertain effects are not repeated: what the node's journal grants beside effects whose outcome is
    open, spelled out on the rows.
 */
module Separation {
  import opened Messages
  import opened Receipts
  import opened Outcomes
  import opened Histories
  import opened Requests
  import opened Journal

  // The effect may still take place, or may have taken place.
  predicate Open(e: Entry) {
    e.result.None? || e.result.value.status == Indeterminate
  }

  // The incarnation a command asks for, "" for whichever is current.
  function Asked(b: Body): string {
    match b
    case StartBody(s) => s.incarnation
    case StopBody(s) => s.target.incarnation
    case ControlBody(a) => a.target.incarnation
    case _ => ""
  }

  // The incarnation that a row is about, as far as it is known.
  function Session(e: Entry): string {
    if e.pin != "" then e.pin else Asked(e.command.body)
  }

  predicate Elsewhere(a: string, b: string) {
    a != "" && b != "" && a != b
  }

  predicate Types(b: Body) {
    b.ControlBody? && !b.control.action.InterruptAction?
  }

  predicate Room(rows: Rows, c: Command) {
    c.id !in rows && |rows| < MaxCommands
  }

  predicate ProjectIsFree(rows: Rows, project: string) {
    && (forall id | id in rows && Open(rows[id]) && rows[id].command.body.WorkspaceBody? ::
          rows[id].command.body.workspace.project != project)
    && (forall id | id in rows && Open(rows[id]) && rows[id].command.body.WorktreeBody? ::
          rows[id].command.body.worktree.project != project)
  }

  // What a new command finds when it is granted: room, and nothing open that it could disturb.
  predicate MayBegin(rows: Rows, c: Command) {
    && |rows| < MaxCommands
    && match c.body
       case StartBody(s) =>
         forall id | id in rows && Open(rows[id]) && rows[id].command.body.StartBody? ::
           rows[id].command.body.start.workspace == s.workspace ==> Elsewhere(Session(rows[id]), s.incarnation)
       case ControlBody(a) =>
         Types(c.body) ==>
           && (forall id | id in rows && Open(rows[id]) && Types(rows[id].command.body) ::
                 rows[id].command.body.control.target.terminal == a.target.terminal ==>
                   Elsewhere(Session(rows[id]), a.target.incarnation))
           && (forall id | id in rows && Open(rows[id]) && rows[id].command.body.StopBody? ::
                 rows[id].command.body.stop.target.terminal == a.target.terminal ==>
                   Elsewhere(Session(rows[id]), a.target.incarnation))
           && (forall id | id in rows && Open(rows[id]) && rows[id].command.body.StartBody? ::
                 || Elsewhere(Session(rows[id]), a.target.incarnation)
                 || (&& rows[id].receipt.Some? && rows[id].receipt.value.handle.target.terminal != ""
                     && rows[id].receipt.value.handle.target.terminal != a.target.terminal))
       case WorkspaceBody(w) => ProjectIsFree(rows, w.project)
       case WorktreeBody(w) => ProjectIsFree(rows, w.project)
       case _ => true
  }

  // The journal's two looks at the incarnation, and the one of the row.
  lemma SessionIsKnown(id: string, e: Entry, node: string, scope: string)
    requires ValidEntry(id, e, node) && (IsLifecycle(e.command.body) || e.command.body.ControlBody?)
    ensures e.command.target == node && e.command.id == id
    ensures Different(e.pin, scope) || Different(KnownIncarnation(e.command, e.receipt), scope) <==>
            Elsewhere(Session(e), scope)
  {
    hide ReceiptSize, StageHistory, Summarizes, Evidence, ValidBody, ValidSubmitted, ValidResult;
  }

  /******* What is granted *******/

  // The fence, one row at a time.
  lemma FenceIsPerRow(rows: Rows, c: Command, node: string)
    requires c.id !in rows
    ensures Claim(rows, c).0.Claimed? <==>
            && Room(rows, c) && !ProjectFenced(rows, c)
            && forall id | id in rows :: !Conflicts(rows[id], c, KnownIncarnation(c, None))
    ensures Claim(rows, c).0.Full? <==> |rows| >= MaxCommands
    ensures Room(rows, c) && !Claim(rows, c).0.Claimed? ==>
              && Claim(rows, c).0.Replay? && Claim(rows, c).0.result.status == Rejected
              && c.id in Claim(rows, c).1 && Claim(rows, c).1[c.id].result == Some(Claim(rows, c).0.result)
  {
    hide Conflicts, ProjectFenced;
  }

  /** A start is granted exactly if there is room and no start with an open outcome is about the same
      workspace of, as far as is known, the same session. */
  lemma StartIsGranted(rows: Rows, c: Command, node: string)
    requires ValidRows(rows, node) && ValidCommand(c, node) && c.body.StartBody? && c.id !in rows
    ensures Claim(rows, c).0.Claimed? <==> MayBegin(rows, c)
  {
    hide ValidRows, ValidEntry, ValidCommand, Claim, Session, Elsewhere, Different, KnownIncarnation;
    FenceIsPerRow(rows, c, node);
    TargetIs(c, node);
    forall id | id in rows
      ensures Conflicts(rows[id], c, KnownIncarnation(c, None)) <==>
              && Open(rows[id]) && rows[id].command.body.StartBody?
              && rows[id].command.body.start.workspace == c.body.start.workspace
              && !Elsewhere(Session(rows[id]), c.body.start.incarnation)
    {
      EntryOf(rows, id, node);
      RowIs(rows[id], id, node);
      if rows[id].command.body.StartBody? { SessionIsKnown(id, rows[id], node, c.body.start.incarnation); }
    }
  }

  /** Text or keys are granted exactly if there is room and nothing with an open outcome may be about
      the same terminal of the same session: no text or keys to it, no stop of it, and no start that
      has not said which terminal is its own or named this one. */
  lemma TypingIsGranted(rows: Rows, c: Command, node: string)
    requires ValidRows(rows, node) && ValidCommand(c, node) && Types(c.body) && c.id !in rows
    ensures Claim(rows, c).0.Claimed? <==> MayBegin(rows, c)
  {
    hide ValidRows, ValidEntry, ValidCommand, Claim, Session, Elsewhere, Different, KnownIncarnation, ProjectFenced;
    FenceIsPerRow(rows, c, node);
    TargetIs(c, node);
    NoProject(rows, c);
    var t := c.body.control.target;
    forall id | id in rows
      ensures Conflicts(rows[id], c, KnownIncarnation(c, None)) <==>
              && Open(rows[id]) && !Elsewhere(Session(rows[id]), t.incarnation)
              && match rows[id].command.body
                 case ControlBody(a) => Types(rows[id].command.body) && a.target.terminal == t.terminal
                 case StopBody(stop) => stop.target.terminal == t.terminal
                 case StartBody(_) =>
                   || rows[id].receipt.None? || rows[id].receipt.value.handle.target.terminal == ""
                   || rows[id].receipt.value.handle.target.terminal == t.terminal
                 case _ => false
    {
      EntryOf(rows, id, node);
      RowIs(rows[id], id, node);
      var b := rows[id].command.body;
      if IsLifecycle(b) || b.ControlBody? { SessionIsKnown(id, rows[id], node, t.incarnation); }
    }
  }

  /** A stop or an interrupt is granted exactly if there is room. */
  lemma StopIsGranted(rows: Rows, c: Command, node: string)
    requires ValidRows(rows, node) && ValidCommand(c, node) && c.id !in rows
    requires c.body.StopBody? || (c.body.ControlBody? && c.body.control.action.InterruptAction?)
    ensures Claim(rows, c).0.Claimed? <==> MayBegin(rows, c)
  {
    hide ValidRows, ValidEntry, ValidCommand, Claim, ProjectFenced;
    FenceIsPerRow(rows, c, node);
    NoProject(rows, c);
  }

  /** Any other command is granted exactly if there is room and no other such command of its project
      has an open outcome. */
  lemma OthersAreGranted(rows: Rows, c: Command, node: string)
    requires ValidRows(rows, node) && ValidCommand(c, node) && c.id !in rows
    requires !IsLifecycle(c.body) && !c.body.ControlBody?
    ensures Claim(rows, c).0.Claimed? <==> MayBegin(rows, c)
  {
    hide ValidRows, ValidEntry, Claim, ReceiptSize;
    FenceIsPerRow(rows, c, node);
  }

  /** A delivery is granted exactly if the command is new and may begin. */
  lemma GrantIsExact(rows: Rows, c: Command, node: string)
    requires ValidRows(rows, node) && ValidCommand(c, node)
    ensures Claim(rows, c).0.Claimed? <==> c.id !in rows && MayBegin(rows, c)
  {
    hide ValidRows, ValidCommand, Open, Session, Elsewhere, Fenced, ProjectFenced, Recovered, ProjectIsFree;
    if c.id !in rows {
      if c.body.StartBody? {
        StartIsGranted(rows, c, node);
      } else if Types(c.body) {
        TypingIsGranted(rows, c, node);
      } else if c.body.StopBody? || c.body.ControlBody? {
        StopIsGranted(rows, c, node);
      } else {
        OthersAreGranted(rows, c, node);
      }
    }
  }

  lemma TargetIs(c: Command, node: string)
    requires ValidCommand(c, node)
    ensures c.target == node
    ensures c.body.StartBody? ==> KnownIncarnation(c, None) == c.body.start.incarnation
    ensures c.body.ControlBody? ==> KnownIncarnation(c, None) == c.body.control.target.incarnation
  {
  }

  lemma RowIs(e: Entry, id: string, node: string)
    requires ValidEntry(id, e, node)
    ensures e.command.target == node && e.command.id == id
  {
  }

  lemma NoProject(rows: Rows, c: Command)
    requires c.body.ControlBody? || IsLifecycle(c.body)
    ensures !ProjectFenced(rows, c)
  {
  }

  /******* What stays apart *******/

  // Two effects that may not both be open in one session: starts in one workspace, text or keys to
  // one terminal.
  predicate Same(a: Body, b: Body) {
    || (a.StartBody? && b.StartBody? && a.start.workspace == b.start.workspace)
    || (Types(a) && Types(b) && a.control.target.terminal == b.control.target.terminal)
  }

  predicate EffectsApart(rows: Rows) {
    forall a, b | a in rows && b in rows && a != b && Open(rows[a]) && Open(rows[b]) ::
      Same(rows[a].command.body, rows[b].command.body) ==> Elsewhere(Session(rows[a]), Session(rows[b]))
  }

  // Nothing is opened and nothing moves.
  predicate Quieter(rows: Rows, next: Rows) {
    && next.Keys == rows.Keys
    && forall id | id in rows ::
         && next[id].command == rows[id].command && Session(next[id]) == Session(rows[id])
         && (Open(next[id]) ==> Open(rows[id]))
  }

  lemma QuietKeepsApart(rows: Rows, next: Rows)
    requires EffectsApart(rows) && Quieter(rows, next)
    ensures EffectsApart(next)
  {
    hide Session, Open, Same, Elsewhere;
    forall a, b | a in next && b in next && a != b && Open(next[a]) && Open(next[b])
      ensures Same(next[a].command.body, next[b].command.body) ==> Elsewhere(Session(next[a]), Session(next[b]))
    {
      assert Open(rows[a]) && Open(rows[b]);
    }
  }

  // One row is written, apart from all the others.
  lemma PutKeepsApart(rows: Rows, id: string, e: Entry)
    requires EffectsApart(rows)
    requires forall k | k in rows && k != id && Open(rows[k]) && Open(e) ::
               Same(rows[k].command.body, e.command.body) ==> Elsewhere(Session(rows[k]), Session(e))
    ensures EffectsApart(rows[id := e])
  {
    hide Session, Open;
    var next := rows[id := e];
    forall a, b | a in next && b in next && a != b && Open(next[a]) && Open(next[b])
      ensures Same(next[a].command.body, next[b].command.body) ==> Elsewhere(Session(next[a]), Session(next[b]))
    {
      if a != id && b != id { assert next[a] == rows[a] && next[b] == rows[b]; }
    }
  }

  lemma ClaimKeepsApart(rows: Rows, c: Command, node: string)
    requires ValidRows(rows, node) && ValidCommand(c, node) && EffectsApart(rows)
    ensures EffectsApart(Claim(rows, c).1)
  {
    hide ValidRows, ValidEntry, ValidCommand, EffectsApart, Fenced, ProjectFenced, Recovered, Elsewhere, Session;
    var (reply, next) := Claim(rows, c);
    if c.id in rows {
      RecoveredIsQuiet(rows, c);
      QuietKeepsApart(rows, next);
    } else if !reply.Full? {
      var e := next[c.id];
      if Open(e) {
        NewSession(e, c);
        if c.body.StartBody? { StartIsGranted(rows, c, node); }
        if Types(c.body) { TypingIsGranted(rows, c, node); }
      }
      PutKeepsApart(rows, c.id, e);
    }
  }

  lemma RecoveredIsQuiet(rows: Rows, c: Command)
    requires c.id in rows
    ensures Quieter(rows, Claim(rows, c).1)
  {
    hide Fenced, ProjectFenced, Recovered;
  }

  lemma NewSession(e: Entry, c: Command)
    requires e.command == c && e.pin == ""
    ensures c.body.StartBody? ==> Session(e) == c.body.start.incarnation
    ensures c.body.ControlBody? ==> Session(e) == c.body.control.target.incarnation
  {
  }

  // A checkpoint or a pin settles which session a row is about, and is refused beside a conflict.
  lemma ScopedKeepsApart(rows: Rows, id: string, e: Entry, scope: string, node: string)
    requires ValidRows(rows, node) && EffectsApart(rows) && id in rows && scope != ""
    requires !Fenced(rows, rows[id].command, scope) && e.command == rows[id].command && Session(e) == scope
    ensures EffectsApart(rows[id := e])
  {
    hide ValidRows, ValidEntry, EffectsApart, Elsewhere, Session, Different, KnownIncarnation;
    EntryOf(rows, id, node);
    RowIs(rows[id], id, node);
    forall k | k in rows && k != id && Open(rows[k]) && Same(rows[k].command.body, e.command.body)
      ensures Elsewhere(Session(rows[k]), Session(e))
    {
      EntryOf(rows, k, node);
      RowIs(rows[k], k, node);
      SessionIsKnown(k, rows[k], node, scope);
      assert !Conflicts(rows[k], rows[id].command, scope);
    }
    PutKeepsApart(rows, id, e);
  }

  lemma ApplyKeepsApart(rows: Rows, op: Op, node: string)
    requires ValidRows(rows, node) && AddressedTo(op, node) && EffectsApart(rows)
    ensures EffectsApart(Apply(rows, op))
  {
    hide ValidRows, ValidCommand, ValidEntry, EffectsApart, Fenced, Advance, ResultFor, DeliverableResult, Claim,
         Recover;
    match op {
      case ClaimOp(c) => ClaimKeepsApart(rows, c, node);
      case SaveOp(id, r) =>
        if Save(rows, id, r).Some? {
          SavedIncarnation(rows, id, r);
          ScopedKeepsApart(rows, id, Apply(rows, op)[id], r.handle.target.incarnation, node);
        }
      case PinOp(id, i) =>
        if Pin(rows, id, i).Some? { ScopedKeepsApart(rows, id, Apply(rows, op)[id], i, node); }
      case RecoverOp =>
        RecoverIsQuiet(rows);
        QuietKeepsApart(rows, Recover(rows));
      case _ => QuietKeepsApart(rows, Apply(rows, op));
    }
  }

  lemma RecoverIsQuiet(rows: Rows)
    ensures Quieter(rows, Recover(rows))
  {
    hide Recovered;
  }

  /** Over any sequence of operations: no two starts in one workspace, and no two texts or keys to one
      terminal, have open outcomes in what may be the same session. */
  lemma {:induction false} RunKeepsApart(rows: Rows, ops: seq<Op>, node: string)
    requires ValidRows(rows, node) && Separate(rows) && EffectsApart(rows)
    requires forall k | 0 <= k < |ops| :: AddressedTo(ops[k], node)
    ensures EffectsApart(Run(rows, ops))
    decreases |ops|
  {
    hide ValidRows, Separate, EffectsApart, Apply, Grows;
    if ops != [] {
      var before := ops[..|ops| - 1];
      RunKeepsApart(rows, before, node);
      RunKeepsRows(rows, before, 0, node);
      ApplyKeepsApart(Run(rows, before), ops[|ops| - 1], node);
    }
  }

  // What keeps text to a terminal apart from a start or a stop.
  predicate ApartFrom(e: Entry, t: Target, session: string) {
    || Elsewhere(Session(e), session)
    || (e.command.body.StopBody? && e.command.body.stop.target.terminal != t.terminal)
    || (&& e.command.body.StartBody? && e.receipt.Some? && e.receipt.value.handle.target.terminal != ""
        && e.receipt.value.handle.target.terminal != t.terminal)
  }

  // Rows only learn more.
  lemma ApartStays(a: Entry, b: Entry, x: Entry, y: Entry, t: Target, i: string, j: string, node: string)
    requires ValidEntry(i, a, node) && ValidEntry(i, b, node) && EntryGrows(a, b) && IsLifecycle(a.command.body)
    requires ValidEntry(j, x, node) && ValidEntry(j, y, node) && EntryGrows(x, y) && x.command.body.ControlBody?
    requires ApartFrom(a, t, Session(x))
    ensures ApartFrom(b, t, Session(y))
  {
    hide ReceiptSize, StageHistory, Summarizes, Evidence, ValidBody, ValidSubmitted, ValidResult;
  }

  /** Text or keys that were granted after a start or a stop stay apart from it: as long as both
      outcomes are open they are about different sessions or different terminals. */
  lemma LaterTypingStaysApart(rows: Rows, ops: seq<Op>, j: nat, id: string, node: string)
    requires ValidRows(rows, node) && Separate(rows)
    requires forall k | 0 <= k < |ops| :: AddressedTo(ops[k], node)
    requires j < |ops| && ops[j].ClaimOp? && Types(ops[j].command.body)
    requires Claim(Run(rows, ops[..j]), ops[j].command).0.Claimed?
    requires id in Run(rows, ops[..j]) && IsLifecycle(Run(rows, ops[..j])[id].command.body)
    requires id in Run(rows, ops) && Open(Run(rows, ops)[id])
    ensures ops[j].command.id in Run(rows, ops)
    ensures ApartFrom(Run(rows, ops)[id], ops[j].command.body.control.target,
                      Session(Run(rows, ops)[ops[j].command.id]))
  {
    hide Run, ValidRows, Separate, Claim, Session, Grows, ApartFrom, Open, EntryGrows;
    var c, early := ops[j].command, Run(rows, ops[..j]);
    assert AddressedTo(ops[j], node);
    RunKeepsRows(rows, ops[..j], 0, node);
    RunKeepsRows(rows, ops, j, node);
    StepInRun(rows, ops, j, |ops|, node);
    assert ops[..|ops|] == ops;
    GrantedStaysApart(early, Run(rows, ops), c, id, node);
  }

  lemma GrantedStaysApart(early: Rows, late: Rows, c: Command, id: string, node: string)
    requires ValidRows(early, node) && ValidRows(late, node) && ValidCommand(c, node) && Types(c.body)
    requires Claim(early, c).0.Claimed? && Grows(early, late) && Grows(Claim(early, c).1, late)
    requires id in early && IsLifecycle(early[id].command.body) && id in late && Open(late[id])
    ensures c.id in late && ApartFrom(late[id], c.body.control.target, Session(late[c.id]))
  {
    hide ValidRows, ValidEntry, Claim, ValidCommand, Session, Grows, EntryGrows, ApartFrom;
    GrantedRow(early, c, node);
    EntriesGrow(early, late, id, node);
    GrantedIsApart(early, c, id, node);
    ClaimKeepsRows(early, c, node);
    EntriesGrow(Claim(early, c).1, late, c.id, node);
    ApartStays(early[id], late[id], Claim(early, c).1[c.id], late[c.id], c.body.control.target, id, c.id, node);
  }

  lemma GrantedIsApart(rows: Rows, c: Command, id: string, node: string)
    requires ValidRows(rows, node) && ValidCommand(c, node) && Types(c.body) && Claim(rows, c).0.Claimed?
    requires id in rows && IsLifecycle(rows[id].command.body) && Open(rows[id])
    ensures ApartFrom(rows[id], c.body.control.target, c.body.control.target.incarnation)
  {
    hide ValidRows, ValidCommand, Claim, Session, Open, Elsewhere;
    GrantedRow(rows, c, node);
    TypingIsGranted(rows, c, node);
  }

  lemma GrantedRow(rows: Rows, c: Command, node: string)
    requires ValidRows(rows, node) && ValidCommand(c, node) && Claim(rows, c).0.Claimed?
    ensures c.id !in rows && c.id in Claim(rows, c).1
    ensures Claim(rows, c).1[c.id] == Entry(c, None, None, "", false)
    ensures Types(c.body) ==> Session(Claim(rows, c).1[c.id]) == c.body.control.target.incarnation
  {
    hide Fenced, ProjectFenced, Recovered, ValidCommand, ValidRows;
  }

  lemma EntriesGrow(rows: Rows, next: Rows, id: string, node: string)
    requires ValidRows(rows, node) && ValidRows(next, node) && Grows(rows, next) && id in rows
    ensures id in next && ValidEntry(id, rows[id], node) && ValidEntry(id, next[id], node)
    ensures EntryGrows(rows[id], next[id]) && (Open(next[id]) ==> Open(rows[id]))
  {
    hide ValidEntry, Extends;
  }

  /** The other order is not fenced: a stop of a terminal is granted beside open text to it. */
  lemma StopJoinsTyping(rows: Rows, c: Command, id: string, node: string)
    requires ValidRows(rows, node) && ValidCommand(c, node) && c.body.StopBody? && Room(rows, c)
    requires id in rows && Open(rows[id]) && Types(rows[id].command.body)
    requires rows[id].command.body.control.target.terminal == c.body.stop.target.terminal
    requires Session(rows[id]) == c.body.stop.target.incarnation
    ensures Claim(rows, c).0.Claimed? && c.id in Claim(rows, c).1
    ensures id in Claim(rows, c).1 && Open(Claim(rows, c).1[id]) && Open(Claim(rows, c).1[c.id])
    ensures !ApartFrom(Claim(rows, c).1[c.id], rows[id].command.body.control.target, Session(rows[id]))
  {
    hide ValidRows, ValidCommand, Fenced, ProjectFenced, Recovered;
    StopIsGranted(rows, c, node);
  }

  // A key pressed in the terminal that the stop names.
  function KeyTo(stop: Command, id: string): Command
    requires stop.body.StopBody?
  {
    stop.(id := id, submitted := None,
          body := ControlBody(AgentControl(stop.body.stop.target, InputAction, "", ["enter"])))
  }

  /** And every stop can meet such text: a key to its terminal is granted by an empty journal, and the
      stop right after it. */
  lemma EveryStopCanJoinTyping(c: Command, id: string, node: string)
    requires ValidCommand(c, node) && c.body.StopBody? && CommandId(id) && id != c.id
    ensures ValidCommand(KeyTo(c, id), node) && Claim(map[], KeyTo(c, id)).0.Claimed?
    ensures var rows := Claim(map[], KeyTo(c, id)).1;
            var both := Claim(rows, c).1;
            && ValidRows(rows, node) && Claim(rows, c).0.Claimed?
            && id in both && c.id in both && Open(both[id]) && Open(both[c.id])
            && both[id].command.body.control.target == both[c.id].command.body.stop.target
  {
    hide Fenced, ProjectFenced;
    var key := KeyTo(c, id);
    assert ControlKey("enter");
    hide ValidCommand;
    GrantIsExact(map[], key, node);
    var rows := Claim(map[], key).1;
    ClaimKeepsRows(map[], key, node);
    StopIsGranted(rows, c, node);
  }
}
