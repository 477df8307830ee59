/** Uncertain effects are not repeated: what the coordinator admits beside records whose outcome is
    open, spelled out on the records.
 */
module Admission {
  import opened Messages
  import opened Receipts
  import opened Outcomes
  import opened Histories
  import opened Requests
  import opened Coordinator
  import J = Journal
  import R = Records
  import S = Separation

  // The effect may still take place, or may have taken place.
  predicate Unsettled(r: Record) {
    r.status == Accepted || r.status == Running || r.status == Indeterminate
  }

  // The incarnation that a record is about, as far as it is known.
  function Session(r: Record): string {
    if r.receipt.Some? then r.receipt.value.handle.target.incarnation else S.Asked(r.command.body)
  }

  // What a new command finds when no open effect keeps it out.
  predicate MayBegin(records: map<string, Record>, c: Command) {
    match c.body
    case StartBody(s) =>
      forall id | id in records && Unsettled(records[id]) && records[id].command.body.StartBody? ::
        records[id].command.target == c.target && records[id].command.body.start.workspace == s.workspace ==>
          S.Elsewhere(Session(records[id]), s.incarnation)
    case ControlBody(a) =>
      S.Types(c.body) ==>
        && (forall id | id in records && Unsettled(records[id]) && S.Types(records[id].command.body) ::
              records[id].command.target == c.target
              && records[id].command.body.control.target.terminal == a.target.terminal ==>
                S.Elsewhere(Session(records[id]), a.target.incarnation))
        && (forall id | id in records && Unsettled(records[id]) && records[id].command.body.StopBody? ::
              records[id].command.target == c.target
              && records[id].command.body.stop.target.terminal == a.target.terminal ==>
                S.Elsewhere(Session(records[id]), a.target.incarnation))
        && (forall id | id in records && Unsettled(records[id]) && records[id].command.body.StartBody? ::
              || records[id].command.target != c.target
              || S.Elsewhere(Session(records[id]), a.target.incarnation)
              || (&& records[id].receipt.Some? && records[id].receipt.value.handle.target.terminal != ""
                  && records[id].receipt.value.handle.target.terminal != a.target.terminal))
    case _ => true
  }

  // No start of this name on this node, settled or not.
  predicate NameIsFree(records: map<string, Record>, c: Command) {
    c.body.StartBody? ==>
      forall id | id in records && records[id].command.body.StartBody? ::
        || records[id].command.target != c.target
        || records[id].command.body.start.name != c.body.start.name
        || records[id].command.body.start.sessionName != c.body.start.sessionName
  }

  lemma FenceIsExact(records: map<string, Record>, c: Command)
    requires forall id | id in records :: records[id].command.id == id
    requires c.id !in records
    ensures Fenced(records, c) <==> !MayBegin(records, c)
  {
    forall id | id in records
      ensures (&& Open(records[id])
               && J.Clashes(records[id].command, records[id].receipt, c, J.KnownIncarnation(c, None))) <==>
              && Unsettled(records[id]) && records[id].command.target == c.target
              && match c.body
                 case StartBody(s) =>
                   && records[id].command.body.StartBody? && records[id].command.body.start.workspace == s.workspace
                   && !S.Elsewhere(Session(records[id]), s.incarnation)
                 case ControlBody(a) =>
                   && S.Types(c.body) && !S.Elsewhere(Session(records[id]), a.target.incarnation)
                   && (match records[id].command.body
                       case ControlBody(was) =>
                         S.Types(records[id].command.body) && was.target.terminal == a.target.terminal
                       case StopBody(stop) => stop.target.terminal == a.target.terminal
                       case StartBody(_) =>
                         || records[id].receipt.None? || records[id].receipt.value.handle.target.terminal == ""
                         || records[id].receipt.value.handle.target.terminal == a.target.terminal
                       case _ => false)
                 case _ => false
    {
    }
  }

  lemma NameIsExact(records: map<string, Record>, c: Command)
    ensures NameTaken(records, c) <==> !NameIsFree(records, c)
  {
  }

  /** A new command under a new key, for a known node and with room, is created exactly if no open
      effect keeps it out and its agent name is free; otherwise the answer says which of the two. */
  lemma CreationIsExact(s: Store, c: Command)
    requires ValidStore(s) && (c.actor, c.key) !in s.keys && c.id !in s.records && |s.records| < J.MaxCommands
    ensures Create(s, c, true).0.Created? <==> MayBegin(s.records, c) && NameIsFree(s.records, c)
    ensures Create(s, c, true).0 == Refused(EffectsUnresolved) <==> !MayBegin(s.records, c)
    ensures Create(s, c, true).0 == Refused(NameExists) <==>
            MayBegin(s.records, c) && !NameIsFree(s.records, c)
  {
    hide Fenced, NameTaken, MayBegin, NameIsFree, Matching, ValidCommand;
    RecordIds(s);
    FenceIsExact(s.records, c);
    NameIsExact(s.records, c);
  }

  lemma RecordIds(s: Store)
    requires ValidStore(s)
    ensures forall id | id in s.records :: s.records[id].command.id == id
  {
    hide ValidCommand;
    forall id | id in s.records ensures s.records[id].command.id == id {
      assert ValidRecord(id, s.records[id]);
    }
  }

  lemma CreatedMayBegin(s: Store, c: Command, bound: bool)
    requires ValidStore(s) && Create(s, c, bound).0.Created?
    ensures c.id !in s.records && MayBegin(s.records, c) && NameIsFree(s.records, c)
    ensures Create(s, c, bound).1.records == s.records[c.id := Create(s, c, bound).0.record]
    ensures Create(s, c, bound).0.record.command == c && Create(s, c, bound).0.record.receipt.None?
  {
    hide Fenced, NameTaken, MayBegin, NameIsFree, Matching, ValidCommand;
    RecordIds(s);
    FenceIsExact(s.records, c);
    NameIsExact(s.records, c);
  }

  /******* What a request becomes *******/

  /** A start is ready exactly if its node is, with room in its queue, the project has an applied
      revision, which is the one asked for, and the session an incarnation, if it is left open.  Its
      command then is the agent that was asked for, with these two filled in, the request itself kept
      beside it, and the time that the node has for it. */
  lemma StartIsResolved(r: Request, v: View)
    requires Normalize(r) == Some(r) && r.body.StartBody?
    ensures Resolve(r, v).Resolution? <==>
            && v.ready && v.queueFree && v.revision.Some?
            && (r.body.start.revision == "" || r.body.start.revision == v.revision.value)
            && (r.body.start.sessionName != "" && r.body.start.incarnation == "" ==>
                  v.incarnation.Some? && Incarnation(v.incarnation.value))
    ensures Resolve(r, v).Resolution? && r.ttl.Some? ==>
              var c, asked := Build(r, Resolve(r, v).body, v), r.body.start;
              && c.id == v.id && c.key == r.key && c.target == r.node && c.actor == v.actor
              && c.submitted == Some(r) && c.expiresAt == v.now + r.ttl.value
              && c.executionExpiresAt == Some(c.expiresAt + asked.startupTimeoutMs * 1_000_000 + SetupAllowance)
              && c.body.StartBody?
              && c.body.start.project == asked.project && c.body.start.workspace == asked.workspace
              && c.body.start.name == asked.name && c.body.start.provider == asked.provider
              && c.body.start.sessionName == asked.sessionName
              && c.body.start.startupTimeoutMs == asked.startupTimeoutMs
              && c.body.start.revision == v.revision.value && c.body.start.initialPrompt == ""
              && c.body.start.incarnation ==
                 if asked.sessionName != "" && asked.incarnation == "" then v.incarnation.value else asked.incarnation
  {
    hide Incarnation, SessionName, Token;
    NothingIsEmpty();
    assert ValidBody(Filled(r.body));
  }

  /** A project's workspace or worktree: under the coordinator's projects as for a start; under the
      node's own policy exactly if that allows it, and then as it was asked for. */
  lemma ProjectIsResolved(r: Request, v: View)
    requires Normalize(r) == Some(r) && (r.body.WorkspaceBody? || r.body.WorktreeBody?)
    ensures var (asked, name, incarnation) :=
              if r.body.WorkspaceBody?
              then (r.body.workspace.revision, r.body.workspace.sessionName, r.body.workspace.incarnation)
              else (r.body.worktree.revision, r.body.worktree.sessionName, r.body.worktree.incarnation);
            Resolve(r, v).Resolution? <==>
            && v.ready && v.queueFree
            && (if v.managed then v.revision.Some? && (asked == "" || asked == v.revision.value) else v.allowed)
            && (name != "" && incarnation == "" ==> v.incarnation.Some? && Incarnation(v.incarnation.value))
    ensures Resolve(r, v) == Unresolved(NotAuthorized) <==> v.ready && !v.managed && !v.allowed
    ensures Resolve(r, v).Resolution? && r.body.WorkspaceBody? ==>
              var got, asked := Resolve(r, v).body, r.body.workspace;
              && got.WorkspaceBody? && got.workspace.project == asked.project
              && got.workspace.sessionName == asked.sessionName
              && got.workspace.revision == (if v.managed then v.revision.value else asked.revision)
              && got.workspace.incarnation ==
                 if asked.sessionName != "" && asked.incarnation == "" then v.incarnation.value else asked.incarnation
    ensures Resolve(r, v).Resolution? && r.body.WorktreeBody? ==>
              var got, asked := Resolve(r, v).body, r.body.worktree;
              && got.WorktreeBody? && got.worktree.project == asked.project
              && got.worktree.sessionName == asked.sessionName
              && got.worktree.name == asked.name && got.worktree.baseCommit == asked.baseCommit
              && got.worktree.branch == (if v.managed && asked.branch == "" then asked.name else asked.branch)
              && got.worktree.revision == (if v.managed then v.revision.value else asked.revision)
              && got.worktree.incarnation ==
                 if asked.sessionName != "" && asked.incarnation == "" then v.incarnation.value else asked.incarnation
  {
    hide Incarnation, SessionName, Token;
    NothingIsEmpty();
    assert ValidBody(Filled(r.body));
  }

  // Every other command is ready exactly if its node is, with room in its queue, and stays as it is.
  lemma OthersAreResolved(r: Request, v: View)
    requires Normalize(r) == Some(r) && !r.body.StartBody? && !r.body.WorkspaceBody? && !r.body.WorktreeBody?
    ensures Resolve(r, v) ==
            if !v.ready then Unresolved(NotReady)
            else if !v.queueFree then Unresolved(QueueFull)
            else Resolution(r.body)
  {
    hide Incarnation, SessionName, Token;
    assert ValidBody(Filled(r.body));
  }

  /** And so it is with a whole request that passes the checks before: it becomes a record exactly if
      no open effect keeps it out and its agent name is free. */
  lemma SubmissionIsExact(s: Store, request: Request, v: View)
    requires ValidStore(s) && Normalize(request).Some? && !v.storageFails
    requires Resolve(Normalize(request).value, v).Resolution? && KnownView(v)
    requires NothingBlank(Normalize(request).value, v)
    requires (v.actor, Normalize(request).value.key) !in s.keys && v.id !in s.records
    requires v.bound && |s.records| < J.MaxCommands
    ensures Normalize(request).value.ttl.Some?
    ensures var c := Build(Normalize(request).value, Resolve(Normalize(request).value, v).body, v);
            && (Submit(s, request, v).0.Created? <==> MayBegin(s.records, c) && NameIsFree(s.records, c))
            && (Submit(s, request, v).0 == Refused(EffectsUnresolved) <==> !MayBegin(s.records, c))
  {
    hide ValidCommand, ValidStore, Create, Resolve, MayBegin, NameIsFree, Normalize, SameRequest, NothingBlank;
    NormalizeIsIdempotent(request);
    ResolutionIsValid(Normalize(request).value, v);
    StoreKeys(s);
    CreationIsExact(s, Build(Normalize(request).value, Resolve(Normalize(request).value, v).body, v));
  }

  /******* What stays apart *******/

  /** Open effects stay apart: two starts in one workspace of a node, or texts or keys to one terminal
      of it, whose records are accepted, running or indeterminate, are about different sessions. */
  predicate EffectsApart(records: map<string, Record>) {
    forall a, b | a in records && b in records && a != b && Unsettled(records[a]) && Unsettled(records[b]) ::
      records[a].command.target == records[b].command.target
      && S.Same(records[a].command.body, records[b].command.body) ==>
        S.Elsewhere(Session(records[a]), Session(records[b]))
  }

  lemma SubmitKeepsApart(s: Store, request: Request, v: View)
    requires ValidStore(s) && EffectsApart(s.records)
    ensures EffectsApart(Submit(s, request, v).1.records)
  {
    hide ValidCommand, ValidStore, KeysAgree, Create, Build, Resolve, EffectsApart, Normalize, SameRequest;
    StoreKeys(s);
    if Submit(s, request, v).0.Created? {
      var r := Normalize(request).value;
      NormalizeIsIdempotent(request);
      var c := Build(r, Resolve(r, v).body, v);
      CreatedMayBegin(s, c, v.bound);
      InsertKeepsApart(s.records, Create(s, c, v.bound).0.record);
    } else {
      OnlyCreationChanges(s, request, v);
    }
  }

  lemma StoreKeys(s: Store)
    requires ValidStore(s)
    ensures KeysAgree(s)
  {
  }

  lemma OnlyCreationChanges(s: Store, request: Request, v: View)
    requires KeysAgree(s) && !Submit(s, request, v).0.Created?
    ensures Submit(s, request, v).1 == s
  {
    hide ValidCommand, Fenced, NameTaken, Matching, SameRequest, Resolve, Build;
  }

  lemma InsertKeepsApart(records: map<string, Record>, r: Record)
    requires EffectsApart(records) && r.command.id !in records && r.receipt.None? && MayBegin(records, r.command)
    ensures EffectsApart(records[r.command.id := r])
  {
    var next := records[r.command.id := r];
    forall a | a in records && Unsettled(records[a]) && records[a].command.target == r.command.target
                 && S.Same(records[a].command.body, r.command.body)
      ensures S.Elsewhere(Session(records[a]), Session(r)) && S.Elsewhere(Session(r), Session(records[a]))
    {
    }
    forall a, b | a in next && b in next && a != b && Unsettled(next[a]) && Unsettled(next[b])
                    && next[a].command.target == next[b].command.target
                    && S.Same(next[a].command.body, next[b].command.body)
      ensures S.Elsewhere(Session(next[a]), Session(next[b]))
    {
      if a != r.command.id && b != r.command.id { assert next[a] == records[a] && next[b] == records[b]; }
    }
  }

  // A record's session, once known, stays.
  lemma SessionStays(id: string, r: Record, next: Record)
    requires ValidRecord(id, r) && ValidRecord(id, next) && R.RecordGrows(r, next)
    ensures Session(r) != "" ==> Session(next) == Session(r)
    ensures Unsettled(next) ==> Unsettled(r)
  {
    hide ReceiptSize, StageHistory, Summarizes, Evidence, ValidBody, ValidSubmitted, ValidResult;
  }

  lemma StepKeepsApart(s: Store, id: string, op: R.Op)
    requires ValidStore(s) && EffectsApart(s.records) && id in s.records
    ensures EffectsApart(s.records[id := R.Step(s.records[id], op)])
  {
    hide R.Step, ValidRecord, KeysAgree, NamesUnique, R.RecordGrows, Session, Unsettled, ValidStore;
    var r := s.records[id];
    assert ValidRecord(id, r) by { RecordOf(s, id); }
    R.StepKeepsRecord(id, r, op);
    SessionStays(id, r, R.Step(r, op));
    R.SameCommand(r, R.Step(r, op));
    var next := s.records[id := R.Step(r, op)];
    forall a, b | a in next && b in next && a != b && Unsettled(next[a]) && Unsettled(next[b])
                    && next[a].command.target == next[b].command.target
                    && S.Same(next[a].command.body, next[b].command.body)
      ensures S.Elsewhere(Session(next[a]), Session(next[b]))
    {
      assert Unsettled(s.records[a]) && Unsettled(s.records[b]);
      assert S.Elsewhere(Session(s.records[a]), Session(s.records[b]));
    }
  }

  lemma RecordOf(s: Store, id: string)
    requires ValidStore(s) && id in s.records
    ensures ValidRecord(id, s.records[id])
  {
  }
}
