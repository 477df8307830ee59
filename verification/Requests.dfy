/** Command requests: what a client may ask for, how a request is normalised, and how an admitted
    command stays tied to the request it was admitted for.
 */
module Requests {
  import opened Messages
  import opened Receipts
  import opened Courses
  import opened Adapter
  import opened Text

  // Durations are nanoseconds, instants nanoseconds since some fixed moment.
  const DefaultTtl := 10_000_000_000
  const MaxTtl := 30_000_000_000
  const DefaultStartupMs := 30_000
  const MaxStartupMs := 300_000
  const SetupAllowance := 30_000_000_000
  const MaxPromptBytes := 8192

  /******* Command bodies *******/

  predicate LeafChar(c: char) {
    'a' <= c <= 'z' || '0' <= c <= '9'
  }

  predicate ReservedLeaf(s: string) {
    || s in {"con", "prn", "aux", "nul"}
    || (|s| == 4 && s[..3] in {"com", "lpt"} && '0' <= s[3] <= '9')
  }

  // protocol.ValidWorktreeName
  predicate WorktreeName(s: string) {
    && 1 <= |s| <= 64 && LeafChar(s[0])
    && (forall i | 0 <= i < |s| :: LeafChar(s[i]) || s[i] in "_-")
    && !ReservedLeaf(s)
  }

  predicate LowerHex(s: string) {
    forall i | 0 <= i < |s| :: '0' <= s[i] <= '9' || 'a' <= s[i] <= 'f'
  }

  predicate CommitId(s: string) {
    |s| in {40, 64} && LowerHex(s)
  }

  predicate CommandId(s: string) {
    |s| == 32 && LowerHex(s)
  }

  predicate ControlKey(k: string) {
    || (|k| == 1 && 32 <= k[0] as int <= 126)
    || k in {"enter", "esc", "tab", "shift+tab", "up", "down", "left", "right", "backspace", "delete", "home",
             "end", "ctrl+c"}
  }

  predicate ControlInput(action: ControlAction, text: string, keys: seq<string>) {
    match action
    case PromptAction => keys == [] && PromptText(text, MaxPromptBytes)
    case InputAction => text == "" && 1 <= |keys| <= 8 && forall i | 0 <= i < |keys| :: ControlKey(keys[i])
    case InterruptAction => text == "" && keys == []
  }

  // protocol.ValidateAgentTarget with a required terminal
  predicate ExactTarget(t: Target) {
    && Token(t.pane) && Token(t.terminal) && EmptyOrToken(t.agentSession)
    && SessionSelector(t.sessionName, t.incarnation, true)
  }

  // protocol.NormalizeAgentStartupTimeout
  function StartupTimeout(ms: nat): Option<nat> {
    if ms == 0 then Some(DefaultStartupMs)
    else if ms <= 3000 || ms > MaxStartupMs then None
    else Some(ms)
  }

  predicate ValidStart(s: AgentStart) {
    && Token(s.project) && Token(s.revision) && Token(s.workspace) && Token(s.name)
    && SupportedProvider(s.provider)
    && StartupTimeout(s.startupTimeoutMs).Some?
    && (s.initialPrompt != "" ==> ControlInput(PromptAction, s.initialPrompt, []))
    && SessionSelector(s.sessionName, s.incarnation, false)
  }

  predicate ValidStop(s: AgentStop) {
    && ExactTarget(s.target) && Incarnation(s.target.incarnation)
    && Token(s.workspace) && Token(s.tab) && SupportedProvider(s.provider)
  }

  // validateCommandBody
  predicate ValidBody(b: Body) {
    match b
    case ProbeBody => true
    case SessionBody(name) => SessionName(name)
    case WorkspaceBody(w) =>
      Token(w.project) && Token(w.revision) && SessionSelector(w.sessionName, w.incarnation, false)
    case WorktreeBody(w) =>
      && Token(w.project) && Token(w.revision) && WorktreeName(w.name) && WorktreeName(w.branch)
      && CommitId(w.baseCommit) && SessionSelector(w.sessionName, w.incarnation, false)
    case ControlBody(c) => ExactTarget(c.target) && ControlInput(c.action, c.text, c.keys)
    case StartBody(s) => ValidStart(s)
    case StopBody(s) => ValidStop(s)
  }

  /******* Normalisation *******/

  const NoCommit := "0000000000000000000000000000000000000000"

  // The blanks of a request that admission will resolve, filled so that the rest can be checked.
  function Filled(b: Body): Body {
    match b
    case StartBody(s) => StartBody(if s.revision == "" then s.(revision := "managed") else s)
    case WorkspaceBody(w) => WorkspaceBody(if w.revision == "" then w.(revision := "managed") else w)
    case WorktreeBody(w) =>
      WorktreeBody(w.(revision := if w.revision == "" then "managed" else w.revision,
                      branch := if w.branch == "" then w.name else w.branch,
                      baseCommit := if w.baseCommit == "" then NoCommit else w.baseCommit))
    case _ => b
  }

  predicate ValidTtl(ttl: int) {
    0 < ttl <= MaxTtl
  }

  // protocol.NormalizeCommandRequest
  function Normalize(r: Request): Option<Request> {
    if !Token(r.node) || !Token(r.key) || !ValidBody(Filled(r.body)) then None
    else
      var body := if r.body.StartBody?
                  then StartBody(r.body.start.(startupTimeoutMs := StartupTimeout(r.body.start.startupTimeoutMs).value))
                  else r.body;
      var ttl := if r.ttl.None? then DefaultTtl else r.ttl.value;
      if ValidTtl(ttl) then Some(Request(r.node, r.key, Some(ttl), body)) else None
  }

  /** Normalising settles a request: doing it again changes nothing, and two requests that differ
      after it already differed before. */
  lemma NormalizeIsIdempotent(r: Request)
    requires Normalize(r).Some?
    ensures Normalize(Normalize(r).value) == Normalize(r)
    ensures Normalize(r).value.node == r.node && Normalize(r).value.key == r.key
    ensures Normalize(r).value.ttl.Some? && (r.ttl.Some? ==> Normalize(r).value.ttl == r.ttl)
    ensures r.body.StartBody? ==>
              && Normalize(r).value.body.StartBody?
              && Normalize(r).value.body.start ==
                 r.body.start.(startupTimeoutMs := Normalize(r).value.body.start.startupTimeoutMs)
              && 3000 < Normalize(r).value.body.start.startupTimeoutMs <= MaxStartupMs
    ensures !r.body.StartBody? ==> Normalize(r).value.body == r.body
  {
  }

  /******* Commands *******/

  predicate HasPrefix(s: string, p: string) {
    p <= s
  }

  // The revision of a managed project, which only the coordinator hands out.
  predicate ManagedRevision(revision: string) {
    HasPrefix(revision, "managed:")
  }

  // validateLifecycleSubmitted for a start
  predicate StartFollows(got: AgentStart, want: AgentStart) {
    && got.initialPrompt == ""
    && (want.revision != "" ==> want.revision == got.revision)
    && MatchesSession(got.sessionName, got.incarnation, want.sessionName, want.incarnation)
    && want.(revision := got.revision, incarnation := got.incarnation, initialPrompt := "") == got
  }

  predicate ProjectFollows(revision: string, want: string) {
    if want == "" then ManagedRevision(revision) else want == revision
  }

  // The command's body is the submitted one with its blanks resolved.
  predicate BodyFollows(b: Body, r: Body) {
    match (b, r)
    case (StartBody(got), StartBody(want)) => StartFollows(got, want)
    case (StopBody(got), StopBody(want)) => got == want
    case (SessionBody(got), SessionBody(want)) => got == want
    case (ControlBody(got), ControlBody(want)) => got == want
    case (WorkspaceBody(got), WorkspaceBody(want)) =>
      && got.project != ""
      && (ManagedRevision(got.revision) || got.sessionName != "" || got.incarnation != "")
      && got.project == want.project && ProjectFollows(got.revision, want.revision)
      && MatchesSession(got.sessionName, got.incarnation, want.sessionName, want.incarnation)
    case (WorktreeBody(got), WorktreeBody(want)) =>
      && got.project != ""
      && (ManagedRevision(got.revision) || got.sessionName != "" || got.incarnation != "")
      && got.project == want.project && ProjectFollows(got.revision, want.revision)
      && MatchesSession(got.sessionName, got.incarnation, want.sessionName, want.incarnation)
      && want.name == got.name && want.baseCommit == got.baseCommit
      && (if want.branch == "" then want.name else want.branch) == got.branch
    case _ => false
  }

  // protocol.ValidateSubmittedRequest
  predicate ValidSubmitted(c: Command) {
    && c.submitted.Some?
    && var r := c.submitted.value;
       && Normalize(r) == Some(r)
       && r.node == c.target && r.key == c.key
       && BodyFollows(c.body, r.body)
  }

  // protocol.LifecycleExecutionDeadline
  function ExecutionDeadline(expiresAt: int, startupMs: nat): Option<int> {
    match StartupTimeout(startupMs)
    case None => None
    case Some(ms) => Some(expiresAt + ms * 1_000_000 + SetupAllowance)
  }

  function WithCommit(b: Body): Body {
    match b
    case WorktreeBody(w) => WorktreeBody(if w.baseCommit == "" then w.(baseCommit := NoCommit) else w)
    case _ => b
  }

  // protocol.ValidateCommand
  predicate ValidCommand(c: Command, node: string) {
    && CommandId(c.id) && c.target == node && Token(c.target) && Token(c.key) && Token(c.actor)
    && (c.submitted.Some? ==> ValidSubmitted(c))
    && ValidBody(if c.submitted.Some? then WithCommit(c.body) else c.body)
    && (match c.body
        case StartBody(s) =>
          && c.submitted.Some? && c.executionExpiresAt.Some?
          && c.executionExpiresAt == ExecutionDeadline(c.expiresAt, s.startupTimeoutMs)
        case StopBody(_) => c.executionExpiresAt.None? && c.submitted.Some?
        case _ => c.executionExpiresAt.None?)
    && ValidTtl(c.ttl)
  }

  // protocol.EffectiveAgentStart
  function EffectiveStart(c: Command): Option<AgentStart> {
    if c.body.StartBody? && ValidSubmitted(c)
    then Some(c.body.start.(initialPrompt := c.submitted.value.body.start.initialPrompt))
    else None
  }

  /** What runs is what was asked for: the effective start of a valid command is the submitted one,
      apart from a revision and an incarnation that the operator left open, and it carries a prompt
      exactly when a prompt stage may be recorded. */
  lemma EffectiveStartIsSubmitted(c: Command, node: string)
    requires ValidCommand(c, node) && c.body.StartBody?
    ensures EffectiveStart(c).Some?
    ensures var run, asked := EffectiveStart(c).value, c.submitted.value.body.start;
            && run == asked.(revision := run.revision, incarnation := run.incarnation)
            && (asked.revision != "" ==> run.revision == asked.revision)
            && (asked.incarnation != "" ==> run.incarnation == asked.incarnation)
            && (run.initialPrompt != "" <==> PromptRequested(c))
  {
    var got, want := c.body.start, c.submitted.value.body.start;
    var same := want.(revision := got.revision, incarnation := got.incarnation, initialPrompt := "");
    assert got == same;
    assert EffectiveStart(c).value == same.(initialPrompt := want.initialPrompt);
  }

  /** A valid lifecycle command with a resolved session meets everything the adapter and the receipt
      validator rely on. */
  lemma ValidCommandIsRunnable(c: Command, node: string, name: string, incarnation: string)
    requires ValidCommand(c, node) && IsLifecycle(c.body)
    requires name == BodySession(c.body).0 && Incarnation(incarnation)
    requires BodySession(c.body).1 != "" ==> incarnation == BodySession(c.body).1
    ensures Runnable(c, name, incarnation)
  {
    assert SessionSelector(name, BodySession(c.body).1, false);
  }
}
