/** The protocol messages that cross the client, coordinator and node.

    A Go `string` is a byte sequence; a model `string` holds one `char` per byte.  Fields that the
    protocol compares against a fixed vocabulary (stages, outcomes, providers, statuses, details)
    are datatypes whose last constructor carries every other spelling, so a malformed message is
    still a value of the model.
 */
module Messages {
  datatype Option<+T> = None | Some(value: T)

  /******* Bounded identifiers *******/

  predicate Alphanumeric(c: char) {
    'A' <= c <= 'Z' || 'a' <= c <= 'z' || '0' <= c <= '9'
  }

  // commandToken
  predicate Token(s: string) {
    1 <= |s| <= 128 && forall i | 0 <= i < |s| :: Alphanumeric(s[i]) || s[i] in ":_-"
  }

  // sessionIncarnation
  predicate Incarnation(s: string) {
    |s| == 64 && forall i | 0 <= i < |s| :: '0' <= s[i] <= '9' || 'a' <= s[i] <= 'f'
  }

  function LowerCase(s: string): (r: string)
    ensures |r| == |s|
  {
    seq(|s|, i requires 0 <= i < |s| =>
      if 'A' <= s[i] <= 'Z' then s[i] - 'A' + 'a' else s[i])
  }

  const ReservedNames: set<string> := {
    "con", "prn", "aux", "nul",
    "com1", "com2", "com3", "com4", "com5", "com6", "com7", "com8", "com9",
    "lpt1", "lpt2", "lpt3", "lpt4", "lpt5", "lpt6", "lpt7", "lpt8", "lpt9"
  }

  // herdrsession.ValidateName
  predicate SessionName(s: string) {
    && 1 <= |s| <= 64
    && Alphanumeric(s[0])
    && (forall i | 0 <= i < |s| :: Alphanumeric(s[i]) || s[i] in "_-")
    && LowerCase(s) !in ReservedNames
  }

  // The portable lower-case names the documentation asks for.
  predicate PortableName(s: string) {
    && 1 <= |s| <= 64
    && ('a' <= s[0] <= 'z' || '0' <= s[0] <= '9')
    && (forall i | 0 <= i < |s| :: 'a' <= s[i] <= 'z' || '0' <= s[i] <= '9' || s[i] in "_-")
    && s !in ReservedNames
  }

  /** A valid name is one of those exactly if it equals its own lower case. */
  lemma PortableNames(s: string)
    ensures PortableName(s) <==> SessionName(s) && s == LowerCase(s)
  {
    if PortableName(s) { assert LowerCase(s) == s; }
  }

  /** The code accepts other names too. */
  lemma UpperCaseIsAccepted()
    ensures SessionName("Worker") && !PortableName("Worker")
  {
    var lower := LowerCase("Worker");
    assert lower[0] == 'w' && lower[1] == 'o';
    assert forall name | name in ReservedNames :: |name| < 6;
  }

  predicate SessionSelector(name: string, incarnation: string, requireIncarnation: bool) {
    && (name != "" ==> SessionName(name))
    && (incarnation != "" ==> Incarnation(incarnation))
    && (requireIncarnation && name != "" ==> incarnation != "")
  }

  predicate MatchesSession(actualName: string, actualIncarnation: string, name: string, incarnation: string) {
    actualName == name && (incarnation == "" || actualIncarnation == incarnation)
  }

  /******* Agent lifecycle vocabulary *******/

  datatype Stage = CreatePane | Launch | Prompt | ClosePane | OtherStage(text: string)

  datatype Outcome = NotAttempted | Unknown | Confirmed | OtherOutcome(text: string)

  datatype AgentStatus = NoStatus | Idle | Working | Blocked | Done | UnknownStatus | OtherStatus(text: string)

  // The spelling of a provider that was detected.
  type ProviderText = s: string | s != "" && s != "unknown" witness "claude"

  // The empty provider, the provider Herdr has not detected yet, and every other spelling.
  datatype Provider = NoProvider | UnknownProvider | Named(text: ProviderText)

  const SupportedProviders: set<string> := {
    "pi", "claude", "codex", "gemini", "cursor", "devin", "agy", "cline",
    "omp", "mastracode", "opencode", "copilot", "kimi", "kiro", "droid",
    "amp", "grok", "hermes", "kilo", "qodercli", "maki"
  }

  predicate SupportedProvider(p: Provider) {
    p.Named? && p.text in SupportedProviders
  }

  predicate Reported(o: Outcome) {
    !o.OtherOutcome?
  }

  predicate ValidAgentStatus(s: AgentStatus) {
    !s.NoStatus? && !s.OtherStatus?
  }

  /******* Commands *******/

  datatype Target = Target(pane: string, terminal: string, agentSession: string,
                           sessionName: string, incarnation: string)

  datatype AgentStart = AgentStart(project: string, revision: string, workspace: string, name: string,
                                   provider: Provider, sessionName: string, incarnation: string,
                                   startupTimeoutMs: nat, initialPrompt: string)

  datatype AgentStop = AgentStop(target: Target, workspace: string, tab: string, provider: Provider)

  datatype WorkspaceEnsure = WorkspaceEnsure(project: string, revision: string,
                                             sessionName: string, incarnation: string)

  datatype WorktreeCreate = WorktreeCreate(project: string, revision: string, name: string, branch: string,
                                           baseCommit: string, sessionName: string, incarnation: string)

  datatype ControlAction = PromptAction | InputAction | InterruptAction

  datatype AgentControl = AgentControl(target: Target, action: ControlAction, text: string, keys: seq<string>)

  // The typed argument of a command; its constructor is the command type.
  datatype Body =
    | ProbeBody
    | SessionBody(session: string)
    | WorkspaceBody(workspace: WorkspaceEnsure)
    | WorktreeBody(worktree: WorktreeCreate)
    | ControlBody(control: AgentControl)
    | StartBody(start: AgentStart)
    | StopBody(stop: AgentStop)

  datatype Request = Request(node: string, key: string, ttl: Option<int>, body: Body)

  datatype Command = Command(id: string, key: string, target: string, actor: string, ttl: int,
                             expiresAt: int, executionExpiresAt: Option<int>,
                             body: Body, submitted: Option<Request>)

  predicate IsLifecycle(b: Body) {
    b.StartBody? || b.StopBody?
  }

  // protocol.CommandSession
  function BodySession(b: Body): (string, string) {
    match b
    case ProbeBody => ("", "")
    case SessionBody(name) => (name, "")
    case WorkspaceBody(w) => (w.sessionName, w.incarnation)
    case WorktreeBody(w) => (w.sessionName, w.incarnation)
    case ControlBody(c) => (c.target.sessionName, c.target.incarnation)
    case StartBody(s) => (s.sessionName, s.incarnation)
    case StopBody(s) => (s.target.sessionName, s.target.incarnation)
  }

  // protocol.CommandProject and protocol.RequestProject
  function BodyProject(b: Body): (string, string) {
    match b
    case WorkspaceBody(w) => (w.project, w.revision)
    case WorktreeBody(w) => (w.project, w.revision)
    case StartBody(s) => (s.project, s.revision)
    case _ => ("", "")
  }

  // The prompt is stored once, in the request as the operator submitted it.
  predicate PromptRequested(c: Command) {
    c.submitted.Some? && c.submitted.value.body.StartBody? && c.submitted.value.body.start.initialPrompt != ""
  }

  /******* Lifecycle receipts *******/

  datatype StageEvent = StageEvent(stage: Stage, before: bool, outcome: Outcome)

  // An absent handle or target is the one whose fields are all empty: the protocol refuses both.
  datatype Handle = Handle(workspace: string, tab: string, provider: Provider, target: Target)

  datatype Receipt = Receipt(handle: Handle, pane: Outcome, launch: Outcome, prompt: Outcome, stop: Outcome,
                             observed: AgentStatus, sequence: nat, stages: seq<StageEvent>)

  // protocol.LifecycleStageOutcome
  function StageOutcome(r: Receipt, s: Stage): Outcome {
    match s
    case CreatePane => r.pane
    case Launch => r.launch
    case Prompt => r.prompt
    case ClosePane => r.stop
    case OtherStage(_) => OtherOutcome("")
  }

  const NativeStages: seq<Stage> := [CreatePane, Launch, Prompt, ClosePane]

  /******* Results *******/

  datatype Status = Accepted | Running | Succeeded | Failed | TimedOut | Rejected | Indeterminate | Unavailable

  datatype Detail =
    | AgentStarted | AgentStopped | LifecyclePartial | LifecycleUncertain | LifecycleUnresolved
    | NodeRestarted | ServerRestarted | NodeDisconnected | DeadlineExpired | JournalFull
    | PreconditionFailed | TargetChanged | AgentBusy | AgentBlocked | HerdrUnavailable | Unsupported
    | AuthorizationChanged | ProjectNotAuthorized | PersistenceFailed
    // session selection failures
    | SessionManagerUnavailable | SessionUnavailable | SessionReplaced | SessionStartFailed
    | UnsupportedProtocol | SessionDefaultUnmanaged | SessionCapacity
    // details that other command types use
    | StartupUncertain | OtherDetail(text: string)

  datatype Result = Result(id: string, status: Status, detail: Detail, receipt: Option<Receipt>)

  predicate Terminal(s: Status) {
    !s.Accepted? && !s.Running?
  }
}
