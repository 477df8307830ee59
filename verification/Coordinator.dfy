/** The coordinator's command store and admission: one command per actor and key, one start per
    agent name, and a retry identity that resolution never touches.
 */
module Coordinator {
  import opened Messages
  import opened Receipts
  import opened Outcomes
  import opened Histories
  import opened Requests
  import J = Journal

  // Records by command id, and the unique index on actor and idempotency key.
  datatype Store = Store(records: map<string, Record>, keys: map<(string, string), string>)

  predicate ValidRecord(id: string, r: Record) {
    && r.command.id == id && ValidCommand(r.command, r.command.target)
    && DurableReceipt(r.receipt, r.command)
    && (r.receipt.Some? ==> IsLifecycle(r.command.body) && !r.status.Accepted?)
    && (IsLifecycle(r.command.body) && Terminal(r.status) && !r.status.Unavailable? ==>
          ValidResult(RecordResult(r), r.command))
  }

  predicate KeysAgree(s: Store) {
    && (forall id | id in s.records ::
          && (s.records[id].command.actor, s.records[id].command.key) in s.keys
          && s.keys[(s.records[id].command.actor, s.records[id].command.key)] == id)
    && (forall k | k in s.keys ::
          && s.keys[k] in s.records
          && (s.records[s.keys[k]].command.actor, s.records[s.keys[k]].command.key) == k)
  }

  // The agent a start names, across actors and keys.
  predicate SameName(a: Command, b: Command) {
    && a.body.StartBody? && b.body.StartBody? && a.target == b.target
    && a.body.start.name == b.body.start.name && a.body.start.sessionName == b.body.start.sessionName
  }

  predicate NamesUnique(records: map<string, Record>) {
    forall a, b | a in records && b in records && SameName(records[a].command, records[b].command) :: a == b
  }

  predicate ValidStore(s: Store) {
    && (forall id | id in s.records :: ValidRecord(id, s.records[id]))
    && KeysAgree(s)
    && NamesUnique(s.records)
  }

  const Empty := Store(map[], map[])

  /******* The store *******/

  function Find(s: Store, actor: string, key: string): Option<Record>
    requires KeysAgree(s)
  {
    if (actor, key) in s.keys then Some(s.records[s.keys[(actor, key)]]) else None
  }

  // matchingRequest
  predicate Matching(a: Command, b: Command) {
    var b' := b.(id := a.id, expiresAt := a.expiresAt, executionExpiresAt := a.executionExpiresAt);
    if a.submitted.Some? && b.submitted.Some? then a == b'.(body := a.body) && SameKind(a.body, b.body) else a == b'
  }

  predicate SameKind(a: Body, b: Body) {
    match (a, b)
    case (ProbeBody, ProbeBody) => true
    case (SessionBody(_), SessionBody(_)) => true
    case (WorkspaceBody(_), WorkspaceBody(_)) => true
    case (WorktreeBody(_), WorktreeBody(_)) => true
    case (ControlBody(_), ControlBody(_)) => true
    case (StartBody(_), StartBody(_)) => true
    case (StopBody(_), StopBody(_)) => true
    case _ => false
  }

  predicate Open(r: Record) {
    r.status in {Accepted, Running, Indeterminate}
  }

  // checkCoordinatorLifecycleFence
  predicate Fenced(records: map<string, Record>, c: Command) {
    exists id | id in records ::
      Open(records[id]) && J.Clashes(records[id].command, records[id].receipt, c, J.KnownIncarnation(c, None))
  }

  // checkNamedAgentClaim
  predicate NameTaken(records: map<string, Record>, c: Command) {
    exists id | id in records :: SameName(records[id].command, c)
  }

  datatype Refusal =
    | InvalidRequest | KeyReused | NotReady | NotAuthorized | QueueFull | CommandConflict | UnknownNode
    | CapacityReached | EffectsUnresolved | NameExists | StorageDown

  datatype Reply = Created(record: Record) | Original(record: Record) | Refused(reason: Refusal)

  // Store.CreateCommand
  function Create(s: Store, c: Command, bound: bool): (Reply, Store)
    requires KeysAgree(s)
  {
    var found := Find(s, c.actor, c.key);
    if found.Some? then
      (if Matching(found.value.command, c) then Original(found.value) else Refused(CommandConflict), s)
    else if c.id in s.records then (Refused(CommandConflict), s)
    else if !bound then (Refused(UnknownNode), s)
    else if |s.records| >= J.MaxCommands then (Refused(CapacityReached), s)
    else if Fenced(s.records, c) then (Refused(EffectsUnresolved), s)
    else if NameTaken(s.records, c) then (Refused(NameExists), s)
    else
      var record := Record(c, Accepted, OtherDetail("accepted"), None);
      (Created(record), Store(s.records[c.id := record], s.keys[(c.actor, c.key) := c.id]))
  }

  lemma InsertKeepsKeys(s: Store, r: Record)
    requires KeysAgree(s) && r.command.id !in s.records && (r.command.actor, r.command.key) !in s.keys
    ensures KeysAgree(Store(s.records[r.command.id := r], s.keys[(r.command.actor, r.command.key) := r.command.id]))
  {
  }

  lemma InsertKeepsNames(records: map<string, Record>, r: Record)
    requires NamesUnique(records) && r.command.id !in records && !NameTaken(records, r.command)
    ensures NamesUnique(records[r.command.id := r])
  {
    forall a | a in records
      ensures !SameName(records[a].command, r.command) && !SameName(r.command, records[a].command)
    {
    }
  }

  /** Creation keeps the store valid: keys and agent names stay unique and no record is touched. */
  lemma CreateKeepsStore(s: Store, c: Command, bound: bool)
    requires ValidStore(s) && ValidCommand(c, c.target)
    ensures ValidStore(Create(s, c, bound).1)
    ensures forall id | id in s.records ::
            id in Create(s, c, bound).1.records && Create(s, c, bound).1.records[id] == s.records[id]
  {
    hide ValidCommand, ValidResult, Fenced, NameTaken, Matching, KeysAgree, NamesUnique;
    if Create(s, c, bound).0.Created? {
      var record := Record(c, Accepted, OtherDetail("accepted"), None);
      NewKey(s, c);
      InsertKeepsKeys(s, record);
      InsertKeepsNames(s.records, record);
    }
  }

  lemma NewKey(s: Store, c: Command)
    requires KeysAgree(s) && Find(s, c.actor, c.key).None?
    ensures (c.actor, c.key) !in s.keys
  {
  }

  /******* Admission *******/

  // What the coordinator sees when a request arrives: the authorised actor, the clock, a fresh id,
  // the target node's readiness, the project's applied revision (None: not managed), the selected
  // session's incarnation, the node's queue and the store.
  datatype View = View(actor: string, now: int, id: string, ready: bool, managed: bool, revision: Option<string>,
                       allowed: bool, incarnation: Option<string>, queueFree: bool, bound: bool, storageFails: bool)

  // The retry identity of an admitted command.
  predicate SameRequest(c: Command, r: Request) {
    if c.submitted.Some? then c.submitted.value == r
    else c.target == r.node && Some(c.ttl) == r.ttl && c.body == r.body
  }

  // The original is kept whenever admission may change the body.
  predicate KeepsOriginal(r: Request, v: View) {
    || (!r.body.ControlBody? && (BodySession(r.body) != ("", "") || IsLifecycle(r.body)))
    || (BodyProject(r.body).0 != "" && (v.managed || r.body.StartBody?))
  }

  function WithRevision(b: Body, revision: string): Body {
    match b
    case StartBody(s) => StartBody(s.(revision := revision))
    case WorkspaceBody(w) => WorkspaceBody(w.(revision := revision))
    case WorktreeBody(w) =>
      WorktreeBody(w.(revision := revision, branch := if w.branch == "" then w.name else w.branch))
    case _ => b
  }

  function WithIncarnation(b: Body, incarnation: string): Body {
    match b
    case StartBody(s) => StartBody(s.(incarnation := incarnation))
    case WorkspaceBody(w) => WorkspaceBody(w.(incarnation := incarnation))
    case WorktreeBody(w) => WorktreeBody(w.(incarnation := incarnation))
    case _ => b
  }

  predicate Managed(r: Request, v: View) {
    BodyProject(r.body).0 != "" && (v.managed || r.body.StartBody?)
  }

  predicate NeedsIncarnation(r: Request) {
    BodySession(r.body).0 != "" && BodySession(r.body).1 == "" && !r.body.SessionBody?
  }

  // The resolved body, or the reason for refusing the request.
  datatype Resolution = Resolution(body: Body) | Unresolved(reason: Refusal)

  function Resolve(r: Request, v: View): Resolution {
    if !v.ready then Unresolved(NotReady)
    else if Managed(r, v)
      && (v.revision.None? || (BodyProject(r.body).1 != "" && BodyProject(r.body).1 != v.revision.value))
    then Unresolved(NotReady)
    else if BodyProject(r.body).0 != "" && !Managed(r, v) && !v.allowed then Unresolved(NotAuthorized)
    else if NeedsIncarnation(r) && (v.incarnation.None? || !Incarnation(v.incarnation.value)) then Unresolved(NotReady)
    else if !v.queueFree then Unresolved(QueueFull)
    else
      var body := if Managed(r, v) then WithRevision(r.body, v.revision.value) else r.body;
      Resolution(if NeedsIncarnation(r) then WithIncarnation(body, v.incarnation.value) else body)
  }

  function Unprompted(b: Body): Body {
    if b.StartBody? then StartBody(b.start.(initialPrompt := "")) else b
  }

  // The command built from a normalised request and its resolved body.
  function Build(r: Request, body: Body, v: View): Command
    requires r.ttl.Some?
  {
    var expiresAt := v.now + r.ttl.value;
    Command(v.id, r.key, r.node, v.actor, r.ttl.value, expiresAt,
            if body.StartBody? then ExecutionDeadline(expiresAt, body.start.startupTimeoutMs) else None,
            Unprompted(body), if KeepsOriginal(r, v) then Some(r) else None)
  }

  // server.SubmitCommand, after the peer is authorised.
  function Submit(s: Store, request: Request, v: View): (Reply, Store)
    requires KeysAgree(s)
  {
    match Normalize(request)
    case None => (Refused(InvalidRequest), s)
    case Some(r) =>
      if v.storageFails then (Refused(StorageDown), s)
      else
        var found := Find(s, v.actor, r.key);
        if found.Some? then
          (if SameRequest(found.value.command, r) then Original(found.value) else Refused(KeyReused), s)
        else
          match Resolve(r, v)
          case Unresolved(reason) => (Refused(reason), s)
          case Resolution(body) =>
            var c := Build(r, body, v);
            if ValidCommand(c, c.target) then Create(s, c, v.bound) else (Refused(InvalidRequest), s)
  }

  const QueueCapacity := 16

  // The service behind the fleet lock: the store and the target node's command queue.
  class Service {
    var store: Store
    var outbound: seq<Command>

    constructor ()
      ensures store == Empty && outbound == []
    {
      store, outbound := Empty, [];
    }

    // server.SubmitCommand: the body is resolved in place while the request as submitted is kept.
    method SubmitCommand(request: Request, v: View) returns (reply: Reply)
      requires KeysAgree(store) && v.queueFree == (|outbound| < QueueCapacity)
      modifies this
      ensures (reply, store) == Submit(old(store), request, v)
      ensures outbound == if reply.Created? then old(outbound) + [reply.record.command] else old(outbound)
      ensures |old(outbound)| <= QueueCapacity ==> |outbound| <= QueueCapacity
    {
      hide ValidCommand, ValidBody, Create, Normalize, SameRequest, ExecutionDeadline, Incarnation;
      if Normalize(request).Some? { NormalizeIsIdempotent(request); }
      var normalized := Normalize(request);
      if normalized.None? {
        return Refused(InvalidRequest);
      }
      var r := normalized.value;
      if v.storageFails {
        return Refused(StorageDown);
      }
      var existing := Find(store, v.actor, r.key);
      if existing.Some? {
        return if SameRequest(existing.value.command, r) then Original(existing.value) else Refused(KeyReused);
      }
      if !v.ready {
        return Refused(NotReady);
      }
      var (name, incarnation) := BodySession(r.body);
      var body, submitted := r.body, None;
      if !body.ControlBody? && (name != "" || incarnation != "" || IsLifecycle(body)) {
        submitted := Some(r);
      }
      var (project, revision) := BodyProject(body);
      if project != "" {
        if v.managed || body.StartBody? {
          if v.revision.None? || (revision != "" && revision != v.revision.value) {
            return Refused(NotReady);
          }
          submitted := Some(r);
          body := WithRevision(body, v.revision.value);
        } else if !v.allowed {
          return Refused(NotAuthorized);
        }
      }
      if name != "" && incarnation == "" && !body.SessionBody? {
        if v.incarnation.None? || !Incarnation(v.incarnation.value) {
          return Refused(NotReady);
        }
        body := WithIncarnation(body, v.incarnation.value);
      }
      if |outbound| >= QueueCapacity {
        return Refused(QueueFull);
      }
      var expiresAt := v.now + r.ttl.value;
      var deadline := None;
      if body.StartBody? {
        body := Unprompted(body);
        deadline := ExecutionDeadline(expiresAt, body.start.startupTimeoutMs);
      }
      var command := Command(v.id, r.key, r.node, v.actor, r.ttl.value, expiresAt, deadline, body, submitted);
      if !ValidCommand(command, command.target) {
        return Refused(InvalidRequest);
      }
      var (answer, next) := Create(store, command, v.bound);
      reply, store := answer, next;
      if reply.Created? {
        outbound := outbound + [reply.record.command];
      }
    }
  }

  /******* What admission promises *******/

  // A request under the node's own project policy must leave nothing for the coordinator to fill.
  predicate NothingBlank(r: Request, v: View) {
    BodyProject(r.body).0 != "" && !Managed(r, v) ==>
      && BodyProject(r.body).1 != ""
      && (r.body.WorktreeBody? ==>
            r.body.worktree.branch != "" && (KeepsOriginal(r, v) || r.body.worktree.baseCommit != ""))
  }

  predicate KnownView(v: View) {
    && CommandId(v.id) && Token(v.actor)
    && (v.revision.Some? ==> Token(v.revision.value) && ManagedRevision(v.revision.value))
  }

  lemma ResolvedBodyFollows(r: Request, v: View)
    requires Normalize(r) == Some(r) && Resolve(r, v).Resolution? && KeepsOriginal(r, v) && KnownView(v)
    ensures BodyFollows(Unprompted(Resolve(r, v).body), r.body) <==>
            NothingBlank(r, v)
  {
    assert ValidBody(Filled(r.body));
  }

  lemma NothingIsEmpty()
    ensures !Token("") && !WorktreeName("") && !CommitId("")
  {
  }

  lemma ResolvedBodyIsValid(r: Request, v: View)
    requires Normalize(r) == Some(r) && Resolve(r, v).Resolution? && KnownView(v)
    ensures var body := Unprompted(Resolve(r, v).body);
            NothingBlank(r, v) ==> ValidBody(if KeepsOriginal(r, v) then WithCommit(body) else body)
    ensures !KeepsOriginal(r, v) && ValidBody(Unprompted(Resolve(r, v).body)) ==> NothingBlank(r, v)
  {
    hide SessionName, Incarnation, Token, WorktreeName, CommitId, ControlInput, StartupTimeout, SupportedProvider,
         ManagedRevision;
    NothingIsEmpty();
    assert ValidBody(Filled(r.body));
  }

  /** Resolution never spoils a request: a normalised request that passes the readiness checks
      becomes a valid command, exactly when a request outside managed projects left no blank. */
  lemma ResolutionIsValid(r: Request, v: View)
    requires Normalize(r) == Some(r) && Resolve(r, v).Resolution? && KnownView(v)
    ensures ValidCommand(Build(r, Resolve(r, v).body, v), r.node) <==> NothingBlank(r, v)
  {
    hide ValidBody, BodyFollows, Resolve;
    ResolvedBodyIsValid(r, v);
    if KeepsOriginal(r, v) { ResolvedBodyFollows(r, v); } else { UnresolvedBodyIsKept(r, v); }
    BuiltKind(r, v);
  }

  lemma BuiltKind(r: Request, v: View)
    requires Normalize(r) == Some(r) && Resolve(r, v).Resolution?
    ensures Token(r.node) && Token(r.key) && ValidTtl(r.ttl.value)
    ensures SameKind(Resolve(r, v).body, r.body)
    ensures r.body.StartBody? ==>
              StartupTimeout(Resolve(r, v).body.start.startupTimeoutMs)
              == Some(Resolve(r, v).body.start.startupTimeoutMs)
  {
  }

  /** Admission keeps the operator's request: what a created record remembers as its retry identity
      is exactly the normalised request, whatever resolution filled in. */
  lemma AdmittedIdentity(s: Store, request: Request, v: View, other: Request)
    requires KeysAgree(s) && Submit(s, request, v).0.Created?
    requires Normalize(other).Some? && Normalize(other).value.key == Normalize(request).value.key
    ensures var c := Submit(s, request, v).0.record.command;
            && c.key == Normalize(request).value.key && c.actor == v.actor && c.id == v.id
            && (SameRequest(c, Normalize(other).value) <==> Normalize(other) == Normalize(request))
  {
    hide ValidCommand, Create, ValidBody;
    CreatedIsBuilt(s, request, v);
    NormalizeIsIdempotent(request);
    NormalizeIsIdempotent(other);
    var r, o := Normalize(request).value, Normalize(other).value;
    UnresolvedBodyIsKept(r, v);
  }

  lemma CreatedIsBuilt(s: Store, request: Request, v: View)
    requires KeysAgree(s) && Submit(s, request, v).0.Created?
    ensures Normalize(request).Some? && Normalize(request).value.ttl.Some?
    ensures Resolve(Normalize(request).value, v).Resolution?
    ensures Submit(s, request, v).0.record ==
            Record(Build(Normalize(request).value, Resolve(Normalize(request).value, v).body, v),
                   Accepted, OtherDetail("accepted"), None)
    ensures ValidCommand(Submit(s, request, v).0.record.command, Submit(s, request, v).0.record.command.target)
    ensures Submit(s, request, v).1 ==
            Store(s.records[v.id := Submit(s, request, v).0.record],
                  s.keys[(v.actor, Normalize(request).value.key) := v.id])
  {
    hide ValidCommand, ValidBody, Fenced, NameTaken;
    NormalizeIsIdempotent(request);
  }

  // Without a remembered original, resolution changed nothing.
  lemma UnresolvedBodyIsKept(r: Request, v: View)
    requires Normalize(r) == Some(r) && Resolve(r, v).Resolution?
    ensures !KeepsOriginal(r, v) ==> Unprompted(Resolve(r, v).body) == r.body
  {
    if r.body.ControlBody? { assert ExactTarget(r.body.control.target); }
  }

  /** Resubmitting an admitted request, at any later time and whatever the coordinator then sees,
      returns the original record; any other request under that key is refused. */
  lemma ResubmissionReturnsOriginal(s: Store, request: Request, v: View, later: Store, other: Request, v': View)
    requires KeysAgree(s) && Submit(s, request, v).0.Created?
    requires KeysAgree(later) && v.id in later.records
    requires later.records[v.id].command == Submit(s, request, v).0.record.command
    requires v'.actor == v.actor && !v'.storageFails
    requires Normalize(other).Some? && Normalize(other).value.key == Normalize(request).value.key
    ensures Submit(later, other, v') ==
            if Normalize(other) == Normalize(request) then (Original(later.records[v.id]), later)
            else (Refused(KeyReused), later)
  {
    hide ValidCommand, ValidBody, Create, Build, Resolve, Normalize;
    AdmittedIdentity(s, request, v, other);
    FoundByKey(later, v.id);
  }

  lemma FoundByKey(s: Store, id: string)
    requires KeysAgree(s) && id in s.records
    ensures Find(s, s.records[id].command.actor, s.records[id].command.key) == Some(s.records[id])
  {
  }

  lemma SubmitKeepsStore(s: Store, request: Request, v: View)
    requires ValidStore(s)
    ensures ValidStore(Submit(s, request, v).1)
    ensures forall id | id in s.records ::
            id in Submit(s, request, v).1.records && Submit(s, request, v).1.records[id] == s.records[id]
  {
    hide ValidCommand, ValidBody, Create, Build, Resolve, ValidRecord, NamesUnique, Normalize, SameRequest;
    if Normalize(request).Some? && Resolve(Normalize(request).value, v).Resolution? {
      NormalizeIsIdempotent(request);
      var c := Build(Normalize(request).value, Resolve(Normalize(request).value, v).body, v);
      if ValidCommand(c, c.target) { CreateKeepsStore(s, c, v.bound); }
    }
  }
}
