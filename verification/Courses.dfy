/** What a native Herdr session may answer, and which answers, in turn, make a stage, a start or a stop
    succeed.

    Everything the adapter cannot control (native replies, cancellation, session replacement,
    storage failures) is one of the answers.
 */
module Courses {
  import opened Messages
  import opened Outcomes

  /******* Native observations *******/

  datatype View = View(workspace: string, tab: string, pane: string, terminal: string, agentSession: string,
                       provider: Provider, status: AgentStatus, interactiveReady: bool, launchPending: bool)

  // parseAgentInfo only yields views that pass protocol.ValidateAgentView.
  predicate ParsedView(v: View) {
    && Token(v.workspace) && Token(v.tab) && Token(v.pane) && Token(v.terminal)
    && (v.agentSession == "" || Token(v.agentSession))
    && !v.provider.NoProvider? && ValidAgentStatus(v.status)
  }

  const SomeView := View("w", "t", "p", "x", "", UnknownProvider, Idle, false, false)

  type NativeView = v: View | ParsedView(v) witness SomeView

  datatype NativeHandle = NativeHandle(workspace: string, tab: string, pane: string, terminal: string,
                                       agentSession: string, provider: Provider)

  datatype NativeResult = NativeResult(handle: NativeHandle, pane: Outcome, launch: Outcome, prompt: Outcome,
                                       stop: Outcome, observed: AgentStatus)

  function HandleOfView(v: View): NativeHandle {
    NativeHandle(v.workspace, v.tab, v.pane, v.terminal, v.agentSession, v.provider)
  }

  // lifecycleMatches
  predicate Matches(h: NativeHandle, v: View, withProvider: bool) {
    && h.workspace == v.workspace && h.tab == v.tab && h.pane == v.pane && h.terminal == v.terminal
    && (h.agentSession == "" || h.agentSession == v.agentSession)
    && (withProvider ==> h.provider == v.provider)
  }

  // lifecycleStageOutcome
  function ResultOutcome(r: NativeResult, s: Stage): Outcome {
    match s
    case CreatePane => r.pane
    case Launch => r.launch
    case Prompt => r.prompt
    case _ => r.stop
  }

  function SetOutcome(r: NativeResult, s: Stage, o: Outcome): NativeResult {
    match s
    case CreatePane => r.(pane := o)
    case Launch => r.(launch := o)
    case Prompt => r.(prompt := o)
    case _ => r.(stop := o)
  }

  // The pane of a target, and its terminal and conversation where the target names them.
  predicate SameTarget(h: NativeHandle, v: View) {
    && v.pane == h.pane && (h.terminal != "" ==> v.terminal == h.terminal)
    && (h.agentSession != "" ==> v.agentSession == h.agentSession)
  }

  // lifecycleShellReady: an idle shell with no agent detected in it.
  predicate ShellIsReady(h: NativeHandle, v: View) {
    && Matches(h, v, false) && v.provider == UnknownProvider && !v.launchPending
    && v.status != Working && v.status != Blocked
  }

  // lifecyclePromptReady: the launched agent, idle and interactive.
  predicate AgentIsReady(h: NativeHandle, v: View) {
    Matches(h, v, true) && (v.status == Idle || v.status == Done) && v.interactiveReady && !v.launchPending
  }

  predicate TwoInWorkspace(h: NativeHandle, panes: seq<View>) {
    exists i, j | 0 <= i < j < |panes| :: panes[i].workspace == h.workspace && panes[j].workspace == h.workspace
  }

  // lifecycleStopReady: the pane is the one that is named, and not the workspace's last.
  predicate PaneIsClosable(h: NativeHandle, panes: seq<View>) {
    && (exists i | 0 <= i < |panes| :: panes[i].pane == h.pane)
    && (forall i | 0 <= i < |panes| && panes[i].pane == h.pane :: Matches(h, panes[i], true))
    && TwoInWorkspace(h, panes)
  }

  // No earlier pane has this handle's pane, terminal or tab.
  predicate NewAmong(panes: seq<View>, h: NativeHandle) {
    forall i | 0 <= i < |panes| :: panes[i].pane != h.pane && panes[i].terminal != h.terminal && panes[i].tab != h.tab
  }

  // The pane and its terminal are gone.
  predicate Absent(panes: seq<View>, h: NativeHandle) {
    forall i | 0 <= i < |panes| :: panes[i].pane != h.pane && panes[i].terminal != h.terminal
  }

  // The requested provider, interactive in the created pane.
  predicate Launched(b: Body, v: View) {
    b.StartBody? && v.provider == b.start.provider && v.interactiveReady && !v.launchPending && v.status != Blocked
  }

  // What the refreshed checks of a stage must have observed.
  predicate TargetReady(s: Stage, h: NativeHandle, seen: seq<View>) {
    match s
    case Launch => |seen| == 1 && ShellIsReady(h, seen[0])
    case Prompt => |seen| == 1 && AgentIsReady(h, seen[0])
    case ClosePane => |seen| > 0 && PaneIsClosable(h, seen[..|seen| - 1]) && Matches(h, seen[|seen| - 1], true)
    case _ => true
  }

  // One more pane of the workspace makes two if there was one before.
  lemma CountedPanes(h: NativeHandle, panes: seq<View>, i: nat)
    requires i < |panes|
    ensures TwoInWorkspace(h, panes[..i + 1]) <==>
            || TwoInWorkspace(h, panes[..i])
            || (panes[i].workspace == h.workspace && exists j | 0 <= j < i :: panes[j].workspace == h.workspace)
  {
    var shorter, longer := panes[..i], panes[..i + 1];
    if TwoInWorkspace(h, shorter) {
      var a, b :| 0 <= a < b < |shorter| && shorter[a].workspace == h.workspace && shorter[b].workspace == h.workspace;
      assert longer[a].workspace == h.workspace && longer[b].workspace == h.workspace;
    }
    if TwoInWorkspace(h, longer) {
      var a, b :| 0 <= a < b < |longer| && longer[a].workspace == h.workspace && longer[b].workspace == h.workspace;
      if b < i { assert shorter[a].workspace == h.workspace && shorter[b].workspace == h.workspace; }
    }
    if panes[i].workspace == h.workspace && exists j | 0 <= j < i :: panes[j].workspace == h.workspace {
      var j :| 0 <= j < i && panes[j].workspace == h.workspace;
      assert longer[j].workspace == h.workspace && longer[i].workspace == h.workspace;
    }
  }

  const NoHandle := NativeHandle("", "", "", "", "", NoProvider)

  function Unattempted(h: NativeHandle): NativeResult {
    NativeResult(h, NotAttempted, NotAttempted, NotAttempted, NotAttempted, NoStatus)
  }

  // nativeLifecycleHandle
  function StopHandle(stop: AgentStop): NativeHandle {
    NativeHandle(stop.workspace, stop.tab, stop.target.pane, stop.target.terminal, stop.target.agentSession,
                 stop.provider)
  }

  /******* The environment *******/

  datatype Expiry = Live | DeadlineHit | CancelHit

  function ExpiryErrors(e: Expiry): Errors {
    match e
    case Live => []
    case DeadlineHit => [Deadline]
    case CancelHit => [Canceled]
  }

  datatype Storage = Stored | StoredWithoutReply | NotStored(err: Errors)

  // A created tab: its root pane, and whether the tab itself is as asked for (one pane, in the
  // workspace, around that pane, not focused).
  datatype Created = Created(pane: NativeView, tabMatches: bool, focused: bool)

  // One answer of the environment; each interaction reads the fields that concern it.
  datatype Answer = Answer(expiry: Expiry, session: Errors, fails: bool, storage: Storage, published: bool,
                           created: Option<Created>, view: Option<NativeView>, panes: Option<seq<NativeView>>,
                           accepted: bool)

  const Silence := Answer(DeadlineHit, [Deadline], true, NotStored([Deadline]), false, None, None, None, false)

  // The answer to the next question.
  function NextAnswer(script: seq<Answer>): Answer {
    if script == [] then Silence else script[0]
  }

  predicate SessionHolds(a: Answer) {
    a.expiry == Live && a.session == []
  }

  // Session managers only use the documented failure codes.
  predicate KnownScript(script: seq<Answer>) {
    forall i | 0 <= i < |script| :: KnownSessionCodes(script[i].session)
  }

  /******* What success takes *******/

  // Where a run stands: its handle, the panes it saw, and the answers still to come.
  datatype Situation = Situation(h: NativeHandle, existing: seq<NativeView>, rest: seq<Answer>)

  function Rest(script: seq<Answer>): seq<Answer> {
    if script == [] then [] else script[1..]
  }

  predicate WorkspaceSeen(a: Answer) {
    !a.fails && a.accepted
  }

  predicate PanesSeen(a: Answer) {
    !a.fails && a.panes.Some?
  }

  predicate AgentSeen(h: NativeHandle, a: Answer) {
    !a.fails && a.view.Some? && a.expiry == Live && SameTarget(h, a.view.value)
  }

  // The receipt is stored and its event published.
  predicate HookAccepts(script: seq<Answer>) {
    NextAnswer(script).storage.Stored? && NextAnswer(Rest(script)).published
  }

  // The request is well formed and the observer connects.
  function Opened(at: Situation): Option<Situation> {
    if NextAnswer(at.rest).accepted && WorkspaceSeen(NextAnswer(Rest(at.rest))) then
      Some(at.(rest := Rest(Rest(at.rest))))
    else None
  }

  // The read-only checks of stage s.
  function Refreshed(s: Stage, at: Situation): Option<Situation> {
    var next := Rest(at.rest);
    var a, b, c := NextAnswer(at.rest), NextAnswer(next), NextAnswer(Rest(next));
    match s
    case CreatePane =>
      if a.accepted && WorkspaceSeen(b) && PanesSeen(c) then
        Some(at.(existing := c.panes.value, rest := Rest(Rest(next))))
      else None
    case Launch =>
      if !a.fails && a.view.Some? && ShellIsReady(at.h, a.view.value) then Some(at.(rest := next)) else None
    case Prompt =>
      if AgentSeen(at.h, a) && AgentIsReady(at.h, a.view.value) then Some(at.(rest := next)) else None
    case _ =>
      if WorkspaceSeen(a) && PanesSeen(b) && PaneIsClosable(at.h, b.panes.value)
        && AgentSeen(at.h, c) && Matches(at.h, c.view.value, true)
      then Some(at.(rest := Rest(Rest(next))))
      else None
  }

  // A tab of the workspace with one new pane, in which no agent is detected.
  predicate TabMade(b: Body, existing: seq<View>, a: Answer) {
    && b.StartBody? && !a.fails && a.created.Some? && a.created.value.tabMatches && !a.created.value.focused
    && var pane := a.created.value.pane;
       pane.workspace == b.start.workspace && NewAmong(existing, HandleOfView(pane)) && pane.provider == UnknownProvider
  }

  // An observation of the launch: the pane is the same, and its agent is the requested one if any.
  predicate LaunchSeen(b: Body, h: NativeHandle, v: View) {
    b.StartBody? && Matches(h, v, false) && (v.provider == b.start.provider || v.provider == UnknownProvider)
  }

  // The polls until the requested provider is interactive.
  function Awaited(b: Body, at: Situation): Option<Situation>
    decreases |at.rest|
  {
    var a := NextAnswer(at.rest);
    if !AgentSeen(at.h, a) || !LaunchSeen(b, at.h, a.view.value) || a.view.value.status == Blocked then None
    else
      var next := Situation(HandleOfView(a.view.value), at.existing, Rest(at.rest));
      if Launched(b, a.view.value) then Some(next)
      else if NextAnswer(next.rest).expiry != Live then None
      else Awaited(b, next.(rest := Rest(next.rest)))
  }

  // The reply to agent.start.
  function Replied(b: Body, at: Situation): Option<Situation> {
    var a := NextAnswer(at.rest);
    if !a.fails && a.accepted && a.view.Some? && LaunchSeen(b, at.h, a.view.value)
      && (a.view.value.provider == b.start.provider || a.view.value.launchPending)
    then Some(at.(h := HandleOfView(a.view.value), rest := Rest(at.rest)))
    else None
  }

  // The pane and its terminal are gone, and the workspace is not.
  function Vanished(at: Situation): Option<Situation> {
    var panes, workspace := NextAnswer(at.rest), NextAnswer(Rest(at.rest));
    if PanesSeen(panes) && Absent(panes.panes.value, at.h) && WorkspaceSeen(workspace) then
      Some(at.(rest := Rest(Rest(at.rest))))
    else None
  }

  // The native mutation of stage s, and its reply.
  function Mutated(b: Body, s: Stage, at: Situation): Option<Situation> {
    var next := Rest(at.rest);
    var a := NextAnswer(at.rest);
    match s
    case CreatePane =>
      if TabMade(b, at.existing, a) then Some(at.(h := HandleOfView(a.created.value.pane), rest := next)) else None
    case Launch =>
      if Replied(b, at).Some? then Awaited(b, Replied(b, at).value) else None
    case Prompt =>
      if !a.fails && a.view.Some? && Matches(at.h, a.view.value, true) then Some(at.(rest := next)) else None
    case _ =>
      if !a.fails then Vanished(at.(rest := next)) else None
  }

  // The mutation and the session check after it.
  function Fenced(b: Body, s: Stage, at: Situation): Option<Situation> {
    match Mutated(b, s, at)
    case None => None
    case Some(done) => if SessionHolds(NextAnswer(done.rest)) then Some(done.(rest := Rest(done.rest))) else None
  }

  // The session, the target, the session again, the mutation, and the session once more.
  function Guarded(b: Body, s: Stage, at: Situation): Option<Situation> {
    if !SessionHolds(NextAnswer(at.rest)) then None
    else
      match Refreshed(s, at.(rest := Rest(at.rest)))
      case None => None
      case Some(ready) =>
        if !SessionHolds(NextAnswer(ready.rest)) then None
        else Fenced(b, s, ready.(rest := Rest(ready.rest)))
  }

  // lifecycleEffect's own look at the context comes first.
  function Tried(b: Body, s: Stage, at: Situation): Option<Situation> {
    if NextAnswer(at.rest).expiry == Live then Guarded(b, s, at.(rest := Rest(at.rest))) else None
  }

  // One stage from intent to outcome, with nothing going wrong.
  function StageCourse(b: Body, s: Stage, at: Situation): Option<Situation> {
    if NextAnswer(at.rest).expiry != Live || !HookAccepts(Rest(at.rest)) then None
    else
      match Tried(b, s, at.(rest := Rest(Rest(Rest(at.rest)))))
      case None => None
      case Some(done) => if HookAccepts(done.rest) then Some(done.(rest := Rest(Rest(done.rest)))) else None
  }

  // What the hook leaves when the journal takes the receipt: without a reply nothing is published.
  function HookLeaves(script: seq<Answer>): seq<Answer> {
    if NextAnswer(script).storage.Stored? then Rest(Rest(script)) else Rest(script)
  }

  // One stage up to its outcome, which the journal takes: its reply may be lost.  The answers that
  // are left.
  function StageStored(b: Body, s: Stage, at: Situation): Option<seq<Answer>> {
    if NextAnswer(at.rest).expiry != Live || !HookAccepts(Rest(at.rest)) then None
    else
      match Tried(b, s, at.(rest := Rest(Rest(Rest(at.rest)))))
      case None => None
      case Some(done) => if NextAnswer(done.rest).storage.NotStored? then None else Some(HookLeaves(done.rest))
  }

  function CheckedStored(b: Body, s: Stage, at: Situation): Option<seq<Answer>> {
    match Refreshed(s, at)
    case None => None
    case Some(ready) => StageStored(b, s, ready)
  }

  // A stage with the check that is made before its intent.
  function CheckedCourse(b: Body, s: Stage, at: Situation): Option<Situation> {
    match Refreshed(s, at)
    case None => None
    case Some(ready) => StageCourse(b, s, ready)
  }

  // The workspace and the panes in it, before a start's first effect.
  function Prepared(at: Situation): Option<Situation> {
    match Opened(at)
    case None => None
    case Some(open) =>
      var panes := NextAnswer(Rest(open.rest));
      if WorkspaceSeen(NextAnswer(open.rest)) && PanesSeen(panes) then
        Some(open.(existing := panes.panes.value, rest := Rest(Rest(open.rest))))
      else None
  }

  function PaneCourse(b: Body, at: Situation): Option<Situation>
    requires b.StartBody?
  {
    match Prepared(at)
    case None => None
    case Some(ready) => StageCourse(b, CreatePane, ready.(h := ready.h.(workspace := b.start.workspace)))
  }

  // A whole start: every answer, in turn, is the one that is hoped for.
  function StartCourse(b: Body, prompted: bool, at: Situation): Option<Situation>
    requires b.StartBody?
  {
    match PaneCourse(b, at)
    case None => None
    case Some(made) =>
      match CheckedCourse(b, Launch, made)
      case None => None
      case Some(launched) => if prompted then CheckedCourse(b, Prompt, launched) else Some(launched)
  }

  function StopCourse(b: Body, at: Situation): Option<Situation> {
    match Opened(at)
    case None => None
    case Some(open) => CheckedCourse(b, ClosePane, open)
  }

  // A start whose last stage is on record as confirmed, whatever comes after.
  function StartStored(b: Body, prompted: bool, at: Situation): Option<seq<Answer>>
    requires b.StartBody?
  {
    match PaneCourse(b, at)
    case None => None
    case Some(made) =>
      if !prompted then CheckedStored(b, Launch, made)
      else
        match CheckedCourse(b, Launch, made)
        case None => None
        case Some(launched) => CheckedStored(b, Prompt, launched)
  }

  function StopStored(b: Body, at: Situation): Option<seq<Answer>> {
    match Opened(at)
    case None => None
    case Some(open) => CheckedStored(b, ClosePane, open)
  }

  /******* What a foreign pane takes *******/

  // A tab as asked for, with one new pane in which some other provider is already detected.
  predicate ForeignTab(b: Body, existing: seq<View>, a: Answer) {
    && b.StartBody? && !a.fails && a.created.Some? && a.created.value.tabMatches
    && var pane := a.created.value.pane;
       && pane.workspace == b.start.workspace && NewAmong(existing, HandleOfView(pane))
       && pane.provider.Named? && pane.provider != b.start.provider
  }

  // The session still holds afterwards, so the observation is believed.
  predicate ForeignFenced(b: Body, at: Situation) {
    ForeignTab(b, at.existing, NextAnswer(at.rest)) && SessionHolds(NextAnswer(Rest(at.rest)))
  }

  predicate ForeignGuarded(b: Body, at: Situation) {
    SessionHolds(NextAnswer(at.rest)) &&
    match Refreshed(CreatePane, at.(rest := Rest(at.rest)))
    case None => false
    case Some(ready) => SessionHolds(NextAnswer(ready.rest)) && ForeignFenced(b, ready.(rest := Rest(ready.rest)))
  }

  predicate ForeignTried(b: Body, at: Situation) {
    NextAnswer(at.rest).expiry == Live && ForeignGuarded(b, at.(rest := Rest(at.rest)))
  }

  predicate ForeignStage(b: Body, at: Situation) {
    && NextAnswer(at.rest).expiry == Live && HookAccepts(Rest(at.rest))
    && ForeignTried(b, at.(rest := Rest(Rest(Rest(at.rest)))))
  }

  // A start whose answers are good up to its created pane, which is a foreign one.
  predicate ForeignStart(b: Body, at: Situation)
    requires b.StartBody?
  {
    match Prepared(at)
    case None => false
    case Some(ready) => ForeignStage(b, ready.(h := ready.h.(workspace := b.start.workspace)))
  }
}
