/** The client's request ledger: every mutation is written down before it is submitted, so a retry,
    by whatever process, submits the same request under the same key.
 */
module Ledger {
  import opened Messages
  import opened Receipts
  import opened Requests

  const MaxFiles := 16384

  // The agent an operator names.  The file name is a digest of these three.
  datatype Scope = Scope(node: string, session: string, name: string)

  datatype Kind = IntentFile | SessionFile | WorkspaceFile | StartFile | StopFile

  datatype Intent = Intent(scope: Scope, project: string, provider: Provider, prompt: string)

  datatype Document = IntentDoc(intent: Intent) | RequestDoc(request: Request)

  // An interrupted write leaves a truncated document, which is never valid JSON.
  datatype File = Whole(doc: Document) | Torn

  type Files = map<(Scope, Kind), File>

  // How writing a new file ends: written and synced, or failed with whatever was left behind.
  datatype Write = Synced | FailedEmpty | FailedTorn | FailedWhole

  // Files are created once and never rewritten.
  predicate FilesGrow(a: Files, b: Files) {
    forall k | k in a :: k in b && b[k] == a[k]
  }

  // Everything a start asks of the outside: fresh keys, what the ledger's disk does, and what the
  // coordinator and the node answer to the preparatory requests.
  datatype World = World(keys: seq<string>, writes: seq<Write>, existing: Option<bool>, incarnation: Option<string>,
                         revision: Option<string>, workspace: Option<string>)

  datatype Outcome = Submitted(request: Request) | Stopped

  class Client {
    var files: Files
    // start requests handed to the coordinator, in order
    ghost var history: seq<(Scope, Request)>

    constructor (files: Files)
      ensures this.files == files && history == [] && Valid()
    {
      this.files, history := files, [];
    }

    // Every submitted start is on file.
    ghost predicate Valid()
      reads this
    {
      forall i | 0 <= i < |history| ::
        && (history[i].0, StartFile) in files
        && files[(history[i].0, StartFile)] == Whole(RequestDoc(history[i].1))
    }

    // managedPersist, under the ledger's lock
    method Persist(scope: Scope, kind: Kind, doc: Document, write: Write) returns (saved: Option<Document>)
      modifies this`files
      ensures FilesGrow(old(files), files)
      ensures saved.Some? ==> (scope, kind) in files && files[(scope, kind)] == Whole(saved.value)
      ensures if (scope, kind) in old(files)
              then files == old(files) && (saved.Some? <==> old(files)[(scope, kind)].Whole?)
              else saved == if |old(files)| < MaxFiles && write.Synced? then Some(doc) else None
      ensures |files| <= |old(files)| + 1
      ensures (scope, kind) in files && (scope, kind) !in old(files) ==> files[(scope, kind)] in {Whole(doc), Torn}
      ensures forall k | k in files && k != (scope, kind) :: k in old(files)
    {
      if (scope, kind) in files {
        return if files[(scope, kind)].Torn? then None else Some(files[(scope, kind)].doc);
      }
      if |files| >= MaxFiles {
        return None;
      }
      match write {
        case Synced =>
          files := files[(scope, kind) := Whole(doc)];
          return Some(doc);
        case FailedEmpty =>
        case FailedTorn => files := files[(scope, kind) := Torn];
        case FailedWhole => files := files[(scope, kind) := Whole(doc)];
      }
      saved := None;
    }

    // managedSaveRequest: what is submitted is what is on file, and it is this request but for the key.
    method SaveRequest(scope: Scope, kind: Kind, node: string, body: Body, key: string, write: Write)
      returns (saved: Option<Request>)
      modifies this`files
      ensures FilesGrow(old(files), files)
      ensures saved.Some? ==>
                && (scope, kind) in files && files[(scope, kind)] == Whole(RequestDoc(saved.value))
                && Normalize(Request(node, key, Some(DefaultTtl), body)).Some?
                && saved.value == Normalize(Request(node, key, Some(DefaultTtl), body)).value.(key := saved.value.key)
      ensures (scope, kind) !in old(files) && saved.Some? ==>
                saved.value.key == key
      ensures (scope, kind) !in old(files) ==>
                (saved.Some? <==>
                   && |old(files)| < MaxFiles && write.Synced?
                   && Normalize(Request(node, key, Some(DefaultTtl), body)).Some?)
      ensures |files| <= |old(files)| + 1
      ensures forall k | k in files && k != (scope, kind) :: k in old(files)
    {
      var request := Normalize(Request(node, key, Some(DefaultTtl), body));
      if request.None? {
        return None;
      }
      var data := Persist(scope, kind, RequestDoc(request.value), write);
      if data.None? || !data.value.RequestDoc? {
        return None;
      }
      var original := data.value.request;
      return if request.value.(key := original.key) == original then Some(original) else None;
    }

    // managedReadRequest: absent, unreadable, or the normalised original.
    method ReadRequest(scope: Scope, kind: Kind) returns (ok: bool, found: Option<Request>)
      ensures ok && found.None? ==> (scope, kind) !in files
      ensures found.Some? ==> ok && (scope, kind) in files && files[(scope, kind)] == Whole(RequestDoc(found.value))
      ensures found.Some? ==> Normalize(found.value) == Some(found.value)
      ensures (scope, kind) !in files ==> ok && found.None?
      ensures forall r {:trigger RequestDoc(r)}
                | (scope, kind) in files && files[(scope, kind)] == Whole(RequestDoc(r)) ::
                Normalize(r) == Some(r) ==> found == Some(r)
    {
      if (scope, kind) !in files {
        return true, None;
      }
      var file := files[(scope, kind)];
      if file.Torn? || !file.doc.RequestDoc? || Normalize(file.doc.request) != Some(file.doc.request) {
        return false, None;
      }
      return true, Some(file.doc.request);
    }

    // The request on file is the start of this intent.
    predicate Starts(r: Request, intent: Intent) {
      && r.node == intent.scope.node && r.body.StartBody?
      && r.body.start.name == intent.scope.name && r.body.start.sessionName == intent.scope.session
      && r.body.start.project == intent.project && r.body.start.provider == intent.provider
      && r.body.start.initialPrompt == intent.prompt
    }

    // The start was written down before.
    predicate OnFile(intent: Intent)
      reads this`files
    {
      && (intent.scope, IntentFile) in files && files[(intent.scope, IntentFile)] == Whole(IntentDoc(intent))
      && (intent.scope, StartFile) in files
      && var file := files[(intent.scope, StartFile)];
         file.Whole? && file.doc.RequestDoc? && Normalize(file.doc.request) == Some(file.doc.request)
         && Starts(file.doc.request, intent)
    }

    // Nothing but the intent is written down for this name, and all that is asked for is granted.
    predicate Granted(intent: Intent, w: World)
      requires |w.keys| == 3 && |w.writes| == 4
      reads this`files
    {
      && (forall k: Kind :: (intent.scope, k) in files ==>
            k.IntentFile? && files[(intent.scope, k)] == Whole(IntentDoc(intent)))
      && |files| + (if (intent.scope, IntentFile) in files then 3 else 4) <= MaxFiles
      && w.writes == [Synced, Synced, Synced, Synced]
      && w.existing == Some(false) && w.incarnation.Some? && w.revision.Some? && w.workspace.Some?
      && Normalize(Request(intent.scope.node, w.keys[0], Some(DefaultTtl), SessionBody(intent.scope.session))).Some?
      && Normalize(Request(intent.scope.node, w.keys[1], Some(DefaultTtl), EnsureBody(intent, w))).Some?
      && Normalize(Request(intent.scope.node, w.keys[2], Some(DefaultTtl), LaunchBody(intent, w))).Some?
    }

    function EnsureBody(intent: Intent, w: World): Body
      requires w.revision.Some? && w.incarnation.Some?
    {
      WorkspaceBody(WorkspaceEnsure(intent.project, w.revision.value, intent.scope.session, w.incarnation.value))
    }

    function LaunchBody(intent: Intent, w: World): Body
      requires w.revision.Some? && w.incarnation.Some? && w.workspace.Some?
    {
      StartBody(AgentStart(intent.project, w.revision.value, w.workspace.value, intent.scope.name, intent.provider,
                           intent.scope.session, w.incarnation.value, DefaultStartupMs, intent.prompt))
    }

    // What comes before the first start of a name from this ledger: nobody else has started it, its
    // session runs and its workspace exists.
    method Prepare(intent: Intent, w: World) returns (ready: bool)
      requires |w.keys| == 3 && |w.writes| == 4
      modifies this`files
      ensures FilesGrow(old(files), files) && |files| <= |old(files)| + 2
      ensures forall k | k in files && k !in old(files) ::
              k in {(intent.scope, SessionFile), (intent.scope, WorkspaceFile)}
      ensures ready ==> w.existing == Some(false) && w.revision.Some? && w.incarnation.Some? && w.workspace.Some?
      ensures old(Granted(intent, w)) ==> ready
      ensures ready ==>
                && (intent.scope, SessionFile) in files && files[(intent.scope, SessionFile)].Whole?
                && files[(intent.scope, SessionFile)].doc.RequestDoc?
                && var session := files[(intent.scope, SessionFile)].doc.request;
                   session.node == intent.scope.node && session.body == SessionBody(intent.scope.session)
      ensures ready ==>
                && (intent.scope, WorkspaceFile) in files && files[(intent.scope, WorkspaceFile)].Whole?
                && files[(intent.scope, WorkspaceFile)].doc.RequestDoc?
                && var ensure := files[(intent.scope, WorkspaceFile)].doc.request;
                   && ensure.node == intent.scope.node && ensure.body.WorkspaceBody?
                   && ensure.body.workspace.project == intent.project
                   && ensure.body.workspace.revision == w.revision.value
                   && ensure.body.workspace.sessionName == intent.scope.session
                   && ensure.body.workspace.incarnation == w.incarnation.value
    {
      hide Normalize, LaunchBody;
      var scope := intent.scope;
      // A name that some other client has started is refused here; None is a failed lookup.
      if w.existing != Some(false) {
        return false;
      }
      var session := SaveRequest(scope, SessionFile, scope.node, SessionBody(scope.session), w.keys[0], w.writes[1]);
      if session.None? || w.incarnation.None? || w.revision.None? {
        return false;
      }
      var workspace := SaveRequest(scope, WorkspaceFile, scope.node, EnsureBody(intent, w), w.keys[1], w.writes[2]);
      if workspace.None? || w.workspace.None? {
        return false;
      }
      NormalizeIsIdempotent(Request(scope.node, w.keys[0], Some(DefaultTtl), SessionBody(scope.session)));
      NormalizeIsIdempotent(Request(scope.node, w.keys[1], Some(DefaultTtl), EnsureBody(intent, w)));
      ready := true;
    }

    // The first start of this name from this ledger: the session, the workspace, then the agent.
    method StartAnew(intent: Intent, w: World) returns (outcome: Outcome)
      requires Valid() && |w.keys| == 3 && |w.writes| == 4
      requires (intent.scope, IntentFile) in files && files[(intent.scope, IntentFile)] == Whole(IntentDoc(intent))
      requires (intent.scope, StartFile) !in files
      modifies this
      ensures Valid() && FilesGrow(old(files), files)
      ensures outcome.Stopped? ==> history == old(history)
      ensures outcome.Submitted? ==>
                && history == old(history) + [(intent.scope, outcome.request)] && Starts(outcome.request, intent)
                && OnFile(intent) && files[(intent.scope, StartFile)] == Whole(RequestDoc(outcome.request))
      ensures old(Granted(intent, w)) ==>
                && outcome.Submitted? && outcome.request.key == w.keys[2]
                && Some(outcome.request) ==
                   Normalize(Request(intent.scope.node, w.keys[2], Some(DefaultTtl), LaunchBody(intent, w)))
      ensures outcome.Submitted? ==>
                && outcome.request.node == intent.scope.node && outcome.request.body.StartBody?
                && var start := outcome.request.body.start;
                   && start.project == intent.project && start.provider == intent.provider
                   && start.name == intent.scope.name && start.sessionName == intent.scope.session
                   && start.initialPrompt == intent.prompt
      ensures outcome.Submitted? && (intent.scope, StartFile) !in old(files) ==>
                && w.revision.Some? && w.workspace.Some? && w.incarnation.Some? && w.existing == Some(false)
                && outcome.request.key == w.keys[2] && outcome.request.ttl == Some(DefaultTtl)
                && var start := outcome.request.body.start;
                   && start.revision == w.revision.value && start.workspace == w.workspace.value
                   && start.incarnation == w.incarnation.value && start.startupTimeoutMs == DefaultStartupMs
      // The session and the workspace it names were asked for before, and both requests are on file.
      ensures outcome.Submitted? && (intent.scope, StartFile) !in old(files) ==>
                && (intent.scope, SessionFile) in files && files[(intent.scope, SessionFile)].Whole?
                && (intent.scope, WorkspaceFile) in files && files[(intent.scope, WorkspaceFile)].Whole?
                && var session := files[(intent.scope, SessionFile)].doc;
                   var workspace := files[(intent.scope, WorkspaceFile)].doc;
                   && session.RequestDoc? && session.request.node == intent.scope.node
                   && session.request.body == SessionBody(intent.scope.session)
                   && workspace.RequestDoc? && workspace.request.node == intent.scope.node
                   && workspace.request.body.WorkspaceBody?
                   && workspace.request.body.workspace.project == intent.project
                   && workspace.request.body.workspace.revision == w.revision.value
                   && workspace.request.body.workspace.sessionName == intent.scope.session
                   && workspace.request.body.workspace.incarnation == w.incarnation.value
    {
      hide Normalize, EnsureBody, LaunchBody, Starts;
      var scope := intent.scope;
      var ready := Prepare(intent, w);
      if !ready {
        return Stopped;
      }
      var request := SaveRequest(scope, StartFile, scope.node, LaunchBody(intent, w), w.keys[2], w.writes[3]);
      if request.None? {
        return Stopped;
      }
      LaunchStarts(intent, w, request.value);
      history := history + [(scope, request.value)];
      return Submitted(request.value);
    }

    // The saved request is normalised, and it is the start of the intent.
    lemma LaunchStarts(intent: Intent, w: World, r: Request)
      requires |w.keys| == 3 && w.revision.Some? && w.incarnation.Some? && w.workspace.Some?
      requires var asked := Request(intent.scope.node, w.keys[2], Some(DefaultTtl), LaunchBody(intent, w));
               Normalize(asked).Some? && r == Normalize(asked).value.(key := w.keys[2])
      ensures Some(r) == Normalize(Request(intent.scope.node, w.keys[2], Some(DefaultTtl), LaunchBody(intent, w)))
      ensures Normalize(r) == Some(r) && Starts(r, intent)
      ensures r.node == intent.scope.node && r.key == w.keys[2] && r.ttl == Some(DefaultTtl) && r.body.StartBody?
      ensures var start := r.body.start;
              && start.project == intent.project && start.provider == intent.provider
              && start.name == intent.scope.name && start.sessionName == intent.scope.session
              && start.initialPrompt == intent.prompt
              && start.revision == w.revision.value && start.workspace == w.workspace.value
              && start.incarnation == w.incarnation.value && start.startupTimeoutMs == DefaultStartupMs
    {
      NormalizeIsIdempotent(Request(intent.scope.node, w.keys[2], Some(DefaultTtl), LaunchBody(intent, w)));
    }

    /** managedStart: whatever fails on the way, at most one start request ever leaves for an agent
        name, and every retry submits that one: what was submitted is on file, and what is on file
        is submitted, whatever the outside answers.  A first attempt that nothing disturbs succeeds. */
    method Start(intent: Intent, w: World) returns (outcome: Outcome)
      requires Valid() && |w.keys| == 3 && |w.writes| == 4
      modifies this
      ensures Valid() && FilesGrow(old(files), files)
      ensures outcome.Submitted? ==>
              history == old(history) + [(intent.scope, outcome.request)] && Starts(outcome.request, intent)
      ensures outcome.Stopped? ==> history == old(history)
      ensures outcome.Submitted? ==>
              OnFile(intent) && files[(intent.scope, StartFile)] == Whole(RequestDoc(outcome.request))
      ensures old(OnFile(intent)) ==> outcome == Submitted(old(files)[(intent.scope, StartFile)].doc.request)
      ensures old(Granted(intent, w)) ==>
                && outcome.Submitted? && outcome.request.key == w.keys[2]
                && Some(outcome.request) ==
                   Normalize(Request(intent.scope.node, w.keys[2], Some(DefaultTtl), LaunchBody(intent, w)))
      // What is submitted is the agent that was asked for, in the session of its name.
      ensures outcome.Submitted? ==>
                && outcome.request.node == intent.scope.node && outcome.request.body.StartBody?
                && var start := outcome.request.body.start;
                   && start.project == intent.project && start.provider == intent.provider
                   && start.name == intent.scope.name && start.sessionName == intent.scope.session
                   && start.initialPrompt == intent.prompt
      // A first start names the revision, workspace and incarnation that were found for it.
      ensures outcome.Submitted? && (intent.scope, StartFile) !in old(files) ==>
                && w.revision.Some? && w.workspace.Some? && w.incarnation.Some? && w.existing == Some(false)
                && outcome.request.key == w.keys[2] && outcome.request.ttl == Some(DefaultTtl)
                && var start := outcome.request.body.start;
                   && start.revision == w.revision.value && start.workspace == w.workspace.value
                   && start.incarnation == w.incarnation.value && start.startupTimeoutMs == DefaultStartupMs
      // The session and the workspace it names were asked for before, and both requests are on file.
      ensures outcome.Submitted? && (intent.scope, StartFile) !in old(files) ==>
                && (intent.scope, SessionFile) in files && files[(intent.scope, SessionFile)].Whole?
                && (intent.scope, WorkspaceFile) in files && files[(intent.scope, WorkspaceFile)].Whole?
                && var session := files[(intent.scope, SessionFile)].doc;
                   var workspace := files[(intent.scope, WorkspaceFile)].doc;
                   && session.RequestDoc? && session.request.node == intent.scope.node
                   && session.request.body == SessionBody(intent.scope.session)
                   && workspace.RequestDoc? && workspace.request.node == intent.scope.node
                   && workspace.request.body.WorkspaceBody?
                   && workspace.request.body.workspace.project == intent.project
                   && workspace.request.body.workspace.revision == w.revision.value
                   && workspace.request.body.workspace.sessionName == intent.scope.session
                   && workspace.request.body.workspace.incarnation == w.incarnation.value
    {
      hide Normalize, LaunchBody, EnsureBody;
      var scope := intent.scope;
      var saved := Persist(scope, IntentFile, IntentDoc(intent), w.writes[0]);
      if saved != Some(IntentDoc(intent)) {
        return Stopped;
      }
      var ok, original := ReadRequest(scope, StartFile);
      if !ok {
        return Stopped;
      }
      if original.Some? {
        if !Starts(original.value, intent) {
          return Stopped;
        }
        history := history + [(scope, original.value)];
        return Submitted(original.value);
      }
      outcome := StartAnew(intent, w);
    }

    /** All starts ever submitted for one agent name are one and the same request, key included. */
    lemma OneStartPerName(i: nat, j: nat)
      requires Valid() && i < |history| && j < |history| && history[i].0 == history[j].0
      ensures history[i].1 == history[j].1
    {
    }
  }
}
