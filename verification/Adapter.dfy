/** Agent start and stop against a native Herdr session: every native mutation sits between a
    durable intent and a durable outcome, with session fences around it.

    Everything the adapter cannot control (native replies, cancellation, session replacement,
    storage failures) is answered from `script`, an arbitrary list of answers; when it runs out,
    the deadline has passed.  A statement about every script is a statement about every run.
 */
module Adapter {
  import opened Messages
  import opened Receipts
  import opened Outcomes
  import opened Histories
  import opened Traces
  import opened Courses
  import T = Transcripts

  /******* Failures *******/

  function NoError(): (err: Errors)
    ensures err == [] && KnownSessionCodes(err)
  {
    []
  }

  // agentFailure: a sentinel, joined with the context's error when it is done.
  function Failure(s: Sentinel, e: Expiry): (err: Errors)
    requires !s.SessionFailure?
    ensures err != [] && KnownSessionCodes(err)
  {
    [s] + ExpiryErrors(e)
  }

  function Join(a: Errors, b: Errors): (err: Errors)
    ensures err == [] <==> a == [] && b == []
    ensures KnownSessionCodes(a) && KnownSessionCodes(b) ==> KnownSessionCodes(err)
  {
    a + b
  }

  // How far the checks before a native mutation have come: the session, then the target, then the
  // session again.  Each mutation uses them up.
  datatype Fence = Unchecked | SessionSeen | TargetSeen | Passed

  /******* Receipts of a run *******/

  // node.lifecycleReceipt
  function WireHandle(h: NativeHandle, name: string, incarnation: string, workspace: string): Handle {
    Handle(if h.workspace == "" then workspace else h.workspace, h.tab, h.provider,
           Target(h.pane, h.terminal, h.agentSession, name, incarnation))
  }

  function WireReceipt(r: NativeResult, name: string, incarnation: string, workspace: string,
                       stages: seq<StageEvent>): Receipt
  {
    Receipt(WireHandle(r.handle, name, incarnation, workspace), r.pane, r.launch, r.prompt, r.stop, r.observed,
            |stages|, stages)
  }

  // What protocol.ValidateCommand and session resolution establish before a run starts.
  predicate Runnable(c: Command, name: string, incarnation: string) {
    && IsLifecycle(c.body)
    && BoundedProvider(c.body)
    && Incarnation(incarnation) && SessionSelector(name, incarnation, true)
    && match c.body
       case StartBody(w) => Token(w.workspace) && MatchesSession(name, incarnation, w.sessionName, w.incarnation)
       case StopBody(w) =>
         && Token(w.workspace) && Token(w.tab) && Token(w.target.pane) && Token(w.target.terminal)
         && (w.target.agentSession == "" || Token(w.target.agentSession))
         && w.target.sessionName == name && w.target.incarnation == incarnation
       case _ => false
  }

  function CommandWorkspace(c: Command): string {
    match c.body
    case StartBody(w) => w.workspace
    case StopBody(w) => w.workspace
    case _ => ""
  }

  function InitialResult(c: Command): NativeResult {
    Unattempted(if c.body.StopBody? then StopHandle(c.body.stop) else NoHandle)
  }

  lemma StopBegins(c: Command)
    requires c.body.StopBody?
    ensures InitialResult(c).handle == StopHandle(c.body.stop)
  {
  }

  lemma InitialReceiptIsValid(c: Command, name: string, incarnation: string)
    requires Runnable(c, name, incarnation)
    ensures ValidReceipt(WireReceipt(InitialResult(c), name, incarnation, CommandWorkspace(c), []), c)
  {
    SizeNeverBinds(WireReceipt(InitialResult(c), name, incarnation, CommandWorkspace(c), []), c);
  }

  /******* Advances a run can make *******/

  function WithOutcome(r: Receipt, s: Stage, o: Outcome): Receipt {
    match s
    case CreatePane => r.(pane := o)
    case Launch => r.(launch := o)
    case Prompt => r.(prompt := o)
    case _ => r.(stop := o)
  }

  // The receipt that records one more event of stage s.
  function Recording(r: Receipt, s: Stage, before: bool, o: Outcome, h: Handle, status: AgentStatus): Receipt {
    var stages := r.stages + [StageEvent(s, before, o)];
    WithOutcome(r, s, o).(handle := h, observed := status, stages := stages, sequence := |stages|)
  }

  lemma RecordingSummarizes(r: Receipt, s: Stage, before: bool, o: Outcome, h: Handle, status: AgentStatus)
    requires Summarizes(r) && !s.OtherStage?
    ensures Summarizes(Recording(r, s, before, o, h, status))
  {
    var next := Recording(r, s, before, o, h, status);
    assert next.stages[..|r.stages|] == r.stages;
    assert forall t :: LastOutcome(next.stages, t) == if t == s then o else LastOutcome(r.stages, t);
  }

  // The run stands before the intent of the p-th stage.
  predicate ReadyFor(r: Receipt, c: Command, p: nat) {
    && p < |StageOrder(c.body)|
    && ValidReceipt(r, c)
    && |r.stages| == 2 * p
    && (p > 0 ==> r.stages[2 * p - 1].outcome == Confirmed)
  }

  lemma IntentExtendsHistory(r: Receipt, c: Command, p: nat)
    requires ReadyFor(r, c, p)
    ensures StageHistory(StageOrder(c.body), r.stages + [StageEvent(StageOrder(c.body)[p], true, Unknown)])
  {
    var next := r.stages + [StageEvent(StageOrder(c.body)[p], true, Unknown)];
    forall i | 0 <= i < |next| ensures HistoryEvent(StageOrder(c.body), next, i) {
      if i < |r.stages| { assert HistoryEvent(StageOrder(c.body), r.stages, i); }
    }
  }

  lemma IntentKeepsEvidence(r: Receipt, c: Command, p: nat, status: AgentStatus)
    requires ReadyFor(r, c, p)
    requires StageOrder(c.body)[p] == Prompt ==> PromptRequested(c)
    ensures Evidence(Recording(r, StageOrder(c.body)[p], true, Unknown, r.handle, status), c)
  {
  }

  lemma IntentIsAdvance(r: Receipt, c: Command, p: nat, status: AgentStatus)
    requires ReadyFor(r, c, p) && BoundedProvider(c.body)
    requires StageOrder(c.body)[p] == Prompt ==> PromptRequested(c)
    requires status == NoStatus || ValidAgentStatus(status)
    ensures Advance(Some(r), Recording(r, StageOrder(c.body)[p], true, Unknown, r.handle, status), c)
  {
    var s := StageOrder(c.body)[p];
    IntentExtendsHistory(r, c, p);
    IntentKeepsEvidence(r, c, p, status);
    RecordingIsAdvance(r, s, true, Unknown, r.handle, status, c);
  }

  // One more event of the history, with a handle that may follow and the evidence it needs.
  lemma RecordingIsAdvance(r: Receipt, s: Stage, before: bool, o: Outcome, h: Handle, status: AgentStatus, c: Command)
    requires ValidReceipt(r, c) && BoundedProvider(c.body) && !s.OtherStage?
    requires StageHistory(StageOrder(c.body), r.stages + [StageEvent(s, before, o)])
    requires status == NoStatus || ValidAgentStatus(status)
    requires HandleMayFollow(r.handle, h, c)
    requires Evidence(Recording(r, s, before, o, h, status), c)
    ensures Advance(Some(r), Recording(r, s, before, o, h, status), c)
  {
    var next := Recording(r, s, before, o, h, status);
    RecordingSummarizes(r, s, before, o, h, status);
    SizeNeverBinds(next, c);
  }

  lemma OutcomeExtendsHistory(r: Receipt, c: Command, p: nat, o: Outcome)
    requires ValidReceipt(r, c) && p < |StageOrder(c.body)| && |r.stages| == 2 * p + 1 && Reported(o)
    ensures StageHistory(StageOrder(c.body), r.stages + [StageEvent(StageOrder(c.body)[p], false, o)])
  {
    var next := r.stages + [StageEvent(StageOrder(c.body)[p], false, o)];
    forall i | 0 <= i < |next| ensures HistoryEvent(StageOrder(c.body), next, i) {
      if i < |r.stages| { assert HistoryEvent(StageOrder(c.body), r.stages, i); }
    }
  }

  // A handle the run may end a stage with: the same native identities, and a provider that is
  // still undetected or the requested one.
  predicate HandleMayFollow(h: Handle, next: Handle, c: Command) {
    && PinnedHandle(next) && HandleOf(next, c.body) && PinnedIdentity(h, next)
    && (h.provider.Named? ==> h.provider == next.provider)
  }

  lemma OutcomeIsAdvance(r: Receipt, c: Command, p: nat, o: Outcome, h: Handle, status: AgentStatus)
    requires ValidReceipt(r, c) && BoundedProvider(c.body)
    requires p < |StageOrder(c.body)| && |r.stages| == 2 * p + 1 && Reported(o)
    requires status == NoStatus || ValidAgentStatus(status)
    requires HandleMayFollow(r.handle, h, c)
    requires Evidence(Recording(r, StageOrder(c.body)[p], false, o, h, status), c)
    ensures Advance(Some(r), Recording(r, StageOrder(c.body)[p], false, o, h, status), c)
  {
    OutcomeExtendsHistory(r, c, p, o);
    RecordingIsAdvance(r, StageOrder(c.body)[p], false, o, h, status, c);
  }

  // What a finished mutation may leave in the result: nothing, or the confirmation of s with a
  // handle that the next receipt may carry.
  ghost predicate Recordable(c: Command, s: Stage, prior: NativeResult, next: NativeResult) {
    && (forall d: Stage | !d.OtherStage? && d != s :: ResultOutcome(next, d) == ResultOutcome(prior, d))
    && ResultOutcome(next, s) in {Unknown, Confirmed}
    && (next.observed == NoStatus || ValidAgentStatus(next.observed))
    && HandleMayReplace(c, prior.handle, next.handle)
    && (ResultOutcome(next, s) == Confirmed ==> ConfirmedBy(c, s, next.handle))
  }

  // The same native identities, and a provider that is still undetected or the requested one.
  predicate HandleMayReplace(c: Command, prior: NativeHandle, next: NativeHandle) {
    || next == prior
    || (&& c.body.StartBody?
        && next.workspace == c.body.start.workspace
        && Token(next.tab) && Token(next.pane) && Token(next.terminal)
        && (next.agentSession == "" || Token(next.agentSession))
        && Pinned(prior.tab, next.tab) && Pinned(prior.pane, next.pane) && Pinned(prior.terminal, next.terminal)
        && Pinned(prior.agentSession, next.agentSession)
        && !prior.provider.Named?
        && (next.provider == UnknownProvider || next.provider == c.body.start.provider))
  }

  predicate ConfirmedBy(c: Command, s: Stage, h: NativeHandle) {
    match s
    case CreatePane => h.tab != "" && h.pane != "" && h.terminal != ""
    case Launch => c.body.StartBody? && h.provider == c.body.start.provider
    case _ => true
  }

  // A created pane that reports some other provider.
  predicate ForeignPane(c: Command, r: NativeResult) {
    && c.body.StartBody? && r.pane == Confirmed
    && r.handle.provider.Named? && r.handle.provider != c.body.start.provider
  }

  lemma ForeignIsNotRecordable(c: Command, prior: NativeResult, next: NativeResult)
    requires ForeignPane(c, next) && !prior.handle.provider.Named?
    ensures !Recordable(c, CreatePane, prior, next)
  {
  }

  lemma UnchangedIsRecordable(c: Command, s: Stage, r: NativeResult)
    requires ResultOutcome(r, s) == Unknown
    requires r.observed == NoStatus || ValidAgentStatus(r.observed)
    ensures Recordable(c, s, r, r)
  {
  }

  lemma ConfirmedIsRecordable(c: Command, s: Stage, r: NativeResult, status: AgentStatus)
    requires s == Prompt || s == ClosePane
    requires status == NoStatus || ValidAgentStatus(status)
    ensures Recordable(c, s, r, SetOutcome(r, s, Confirmed).(observed := status))
  {
  }

  lemma RefreshedIsRecordable(c: Command, s: Stage, prior: NativeResult, ready: NativeResult)
    requires ResultOutcome(prior, s) == Unknown
    requires ready == prior.(observed := ready.observed)
    requires ready.observed == NoStatus || ValidAgentStatus(ready.observed)
    ensures Recordable(c, s, prior, ready)
  {
  }

  lemma ObservationIsRepeated(c: Command, name: string, incarnation: string, r: Receipt, prior: NativeResult,
        next: NativeResult)
    requires Repeats(c, name, incarnation, r, prior) && next == prior.(observed := next.observed)
    ensures prior.observed == NoStatus || ValidAgentStatus(prior.observed)
    ensures next.observed == prior.observed || ValidAgentStatus(next.observed) ==>
            Repeats(c, name, incarnation, r, next)
  {
  }

  lemma RecordableSinceRefresh(c: Command, s: Stage, prior: NativeResult, ready: NativeResult, next: NativeResult)
    requires ready == prior.(observed := ready.observed) && Recordable(c, s, ready, next)
    ensures Recordable(c, s, prior, next)
  {
  }

  lemma ObservedAgentMayReplace(c: Command, prior: NativeHandle, current: NativeHandle, v: NativeView)
    requires c.body.StartBody? && HandleMayReplace(c, prior, current) && !prior.provider.Named?
    requires current.workspace == c.body.start.workspace && Matches(current, v, false)
    requires v.provider == UnknownProvider || v.provider == c.body.start.provider
    ensures HandleMayReplace(c, prior, HandleOfView(v))
  {
  }

  lemma SameHandleMayReplace(c: Command, h: NativeHandle)
    ensures HandleMayReplace(c, h, h)
  {
  }

  // Watching a launch changes what was observed, never an outcome.
  ghost predicate Watched(c: Command, prior: NativeResult, next: NativeResult) {
    && next == prior.(handle := next.handle, observed := next.observed)
    && (next.observed == NoStatus || ValidAgentStatus(next.observed))
    && HandleMayReplace(c, prior.handle, next.handle)
    && c.body.StartBody? && next.handle.workspace == c.body.start.workspace
  }

  lemma WatchedIsRecordable(c: Command, prior: NativeResult, next: NativeResult)
    requires Watched(c, prior, next) && prior.launch == Unknown
    ensures Recordable(c, Launch, prior, next)
    ensures next.handle.provider == c.body.start.provider ==> Recordable(c, Launch, prior, next.(launch := Confirmed))
  {
  }

  lemma CreatedPaneIsRecordable(c: Command, prior: NativeResult, v: NativeView)
    requires c.body.StartBody? && v.workspace == c.body.start.workspace
    requires prior.handle == NoHandle.(workspace := c.body.start.workspace)
    requires prior.observed == NoStatus || ValidAgentStatus(prior.observed)
    ensures var next := prior.(handle := HandleOfView(v), pane := Confirmed);
            ForeignPane(c, next) || Recordable(c, CreatePane, prior, next)
  {
  }

  // The adapter's outcomes are honest about what was sent.
  ghost predicate HonestResult(r: NativeResult, sent: seq<Stage>) {
    && (forall s | s in sent :: !s.OtherStage? && ResultOutcome(r, s) in {Unknown, Confirmed})
    && (forall s: Stage | !s.OtherStage? :: ResultOutcome(r, s) == Confirmed ==> s in sent)
  }

  lemma WireKeepsHonesty(r: NativeResult, next: Receipt, sent: seq<Stage>)
    requires next.pane == r.pane && next.launch == r.launch && next.prompt == r.prompt && next.stop == r.stop
    requires HonestResult(r, sent)
    ensures HonestRow(Some(next), sent)
  {
    forall s | s in sent ensures DurableOutcome(Some(next), s) in {Unknown, Confirmed} {
      assert ResultOutcome(r, s) in {Unknown, Confirmed};
    }
    forall s: Stage | DurableOutcome(Some(next), s) == Confirmed ensures s in sent {
      assert ResultOutcome(r, s) == Confirmed;
    }
  }

  lemma IntentIsHonest(r: NativeResult, s: Stage, sent: seq<Stage>)
    requires HonestResult(r, sent) && !s.OtherStage? && s !in sent
    ensures HonestResult(SetOutcome(r, s, Unknown), sent)
  {
    var next := SetOutcome(r, s, Unknown);
    forall d | d in sent ensures !d.OtherStage? && ResultOutcome(next, d) in {Unknown, Confirmed} {
      assert ResultOutcome(next, d) == ResultOutcome(r, d);
    }
    forall d: Stage | !d.OtherStage? && ResultOutcome(next, d) == Confirmed ensures d in sent {
      assert d != s;
      assert ResultOutcome(next, d) == ResultOutcome(r, d);
    }
  }

  lemma OutcomeIsHonest(prior: NativeResult, next: NativeResult, s: Stage, sent: seq<Stage>)
    requires HonestResult(prior, sent) && !s.OtherStage?
    requires forall d: Stage | !d.OtherStage? && d != s :: ResultOutcome(next, d) == ResultOutcome(prior, d)
    requires if s in sent then ResultOutcome(next, s) in {Unknown, Confirmed} else ResultOutcome(next, s) != Confirmed
    ensures HonestResult(next, sent)
  {
    forall d | d in sent ensures !d.OtherStage? && ResultOutcome(next, d) in {Unknown, Confirmed} {
      if d != s { assert ResultOutcome(next, d) == ResultOutcome(prior, d); }
    }
    forall d: Stage | !d.OtherStage? && ResultOutcome(next, d) == Confirmed ensures d in sent {
      if d != s { assert ResultOutcome(next, d) == ResultOutcome(prior, d); }
    }
  }

  lemma RecordableOutcomes(c: Command, s: Stage, prior: NativeResult, next: NativeResult)
    requires Recordable(c, s, prior, next) && !s.OtherStage?
    ensures forall d: Stage | !d.OtherStage? && d != s :: ResultOutcome(next, d) == ResultOutcome(prior, d)
    ensures ResultOutcome(next, s) in {Unknown, Confirmed}
    ensures next.observed == NoStatus || ValidAgentStatus(next.observed)
    ensures SetOutcome(next, s, ResultOutcome(next, s)) == next
  {
  }

  // A stage whose intent is not yet on record has not been sent.
  lemma NothingSentYet(c: Command, r: Receipt, sent: seq<Stage>, p: nat)
    requires ReadyFor(r, c, p) && HonestRow(Some(r), sent)
    ensures StageOrder(c.body)[p] !in sent
  {
    OutcomeAt(StageOrder(c.body), r.stages, p);
  }

  // The receipt repeats the result.
  predicate Repeats(c: Command, name: string, incarnation: string, r: Receipt, result: NativeResult) {
    && r.handle == WireHandle(result.handle, name, incarnation, CommandWorkspace(c))
    && r.pane == result.pane && r.launch == result.launch && r.prompt == result.prompt && r.stop == result.stop
    && (result.observed == NoStatus || ValidAgentStatus(result.observed))
  }

  lemma RepeatedIsHonest(c: Command, name: string, incarnation: string, r: Receipt, result: NativeResult,
        sent: seq<Stage>)
    requires Repeats(c, name, incarnation, r, result) && HonestRow(Some(r), sent) && SentOnce(sent, c)
    ensures HonestResult(result, sent)
  {
    forall s | s in sent ensures !s.OtherStage? && ResultOutcome(result, s) in {Unknown, Confirmed} {
      assert DurableOutcome(Some(r), s) in {Unknown, Confirmed};
      assert s in StageOrder(c.body);
    }
    forall s: Stage | !s.OtherStage? && ResultOutcome(result, s) == Confirmed ensures s in sent {
      assert DurableOutcome(Some(r), s) == Confirmed;
    }
  }

  lemma UnknownIsRecorded(c: Command, name: string, incarnation: string, r: Receipt, result: NativeResult)
    requires Repeats(c, name, incarnation, r, result) && ResultOutcome(result, CreatePane) == Unknown
    ensures r.pane == Unknown
  {
  }

  // A wire receipt made from the result is the recording of its stage.
  lemma WireIsRecording(c: Command, name: string, incarnation: string, r: Receipt, prior: NativeResult,
                        next: NativeResult, s: Stage, before: bool)
    requires Repeats(c, name, incarnation, r, prior) && !s.OtherStage?
    requires forall d: Stage | !d.OtherStage? && d != s :: ResultOutcome(next, d) == ResultOutcome(prior, d)
    ensures WireReceipt(next, name, incarnation, CommandWorkspace(c),
                        r.stages + [StageEvent(s, before, ResultOutcome(next, s))]) ==
            Recording(r, s, before, ResultOutcome(next, s),
                      WireHandle(next.handle, name, incarnation, CommandWorkspace(c)), next.observed)
  {
    assert CreatePane != s ==> ResultOutcome(next, CreatePane) == ResultOutcome(prior, CreatePane);
    assert Launch != s ==> ResultOutcome(next, Launch) == ResultOutcome(prior, Launch);
    assert Prompt != s ==> ResultOutcome(next, Prompt) == ResultOutcome(prior, Prompt);
    assert ClosePane != s ==> ResultOutcome(next, ClosePane) == ResultOutcome(prior, ClosePane);
  }

  lemma ReplacementFollows(c: Command, name: string, incarnation: string, r: Receipt, prior: NativeHandle,
        next: NativeHandle)
    requires Runnable(c, name, incarnation) && ValidReceipt(r, c)
    requires r.handle == WireHandle(prior, name, incarnation, CommandWorkspace(c))
    requires HandleMayReplace(c, prior, next)
    ensures HandleMayFollow(r.handle, WireHandle(next, name, incarnation, CommandWorkspace(c)), c)
  {
  }

  lemma ReplacementKeepsEvidence(c: Command, name: string, incarnation: string, r: Receipt, prior: NativeResult,
                                 next: NativeResult, p: nat, o: Outcome)
    requires Runnable(c, name, incarnation) && ValidReceipt(r, c) && Repeats(c, name, incarnation, r, prior)
    requires p < |StageOrder(c.body)| && |r.stages| == 2 * p + 1
    requires StageOrder(c.body)[p] == Prompt ==> PromptRequested(c)
    requires Recordable(c, StageOrder(c.body)[p], prior, next)
    requires o == ResultOutcome(next, StageOrder(c.body)[p]) || o == NotAttempted
    ensures Evidence(Recording(r, StageOrder(c.body)[p], false, o,
                               WireHandle(next.handle, name, incarnation, CommandWorkspace(c)), next.observed), c)
  {
    StageDependencies(r, c);
  }

  /** Producer and validator agree: the outcome of a stage is always a valid advance of its intent. */
  lemma OutcomeReceiptAdvances(c: Command, name: string, incarnation: string, r: Receipt, prior: NativeResult,
                               next: NativeResult, p: nat, o: Outcome)
    requires Runnable(c, name, incarnation) && ValidReceipt(r, c) && Repeats(c, name, incarnation, r, prior)
    requires p < |StageOrder(c.body)| && |r.stages| == 2 * p + 1
    requires StageOrder(c.body)[p] == Prompt ==> PromptRequested(c)
    requires Recordable(c, StageOrder(c.body)[p], prior, next)
    requires o == ResultOutcome(next, StageOrder(c.body)[p]) || o == NotAttempted
    ensures var s := StageOrder(c.body)[p];
            Advance(Some(r), WireReceipt(SetOutcome(next, s, o), name, incarnation, CommandWorkspace(c),
                                         r.stages + [StageEvent(s, false, o)]), c)
  {
    hide ValidReceipt, Evidence, HandleMayReplace, HandleMayFollow;
    var s := StageOrder(c.body)[p];
    WireIsRecording(c, name, incarnation, r, prior, SetOutcome(next, s, o), s, false);
    ReplacementFollows(c, name, incarnation, r, prior.handle, next.handle);
    ReplacementKeepsEvidence(c, name, incarnation, r, prior, next, p, o);
    OutcomeIsAdvance(r, c, p, o, WireHandle(next.handle, name, incarnation, CommandWorkspace(c)), next.observed);
  }

  /** The intent of the next stage is always a valid advance. */
  lemma IntentReceiptAdvances(c: Command, name: string, incarnation: string, r: Receipt, prior: NativeResult, p: nat)
    requires Runnable(c, name, incarnation) && ReadyFor(r, c, p) && Repeats(c, name, incarnation, r, prior)
    requires StageOrder(c.body)[p] == Prompt ==> PromptRequested(c)
    ensures var s := StageOrder(c.body)[p];
            Advance(Some(r), WireReceipt(SetOutcome(prior, s, Unknown), name, incarnation, CommandWorkspace(c),
                                         r.stages + [StageEvent(s, true, Unknown)]), c)
  {
    hide ValidReceipt, Evidence;
    var s := StageOrder(c.body)[p];
    WireIsRecording(c, name, incarnation, r, prior, SetOutcome(prior, s, Unknown), s, true);
    IntentIsAdvance(r, c, p, prior.observed);
  }

  /** The one receipt the adapter builds that the validator refuses: a created pane that reports
      some other provider. */
  lemma ForeignReceiptIsRefused(c: Command, name: string, incarnation: string, row: Option<Receipt>,
                                next: NativeResult, stages: seq<StageEvent>)
    requires ForeignPane(c, next)
    ensures !Advance(row, WireReceipt(next, name, incarnation, CommandWorkspace(c), stages), c)
  {
  }

  lemma ForeignIsHonest(c: Command, name: string, incarnation: string, r: Receipt, prior: NativeResult,
                        next: NativeResult, sent: seq<Stage>)
    requires Repeats(c, name, incarnation, r, prior) && HonestRow(Some(r), sent) && SentOnce(sent, c)
    requires CreatePane in sent
    requires next == SetOutcome(prior, CreatePane, Confirmed).(handle := next.handle, observed := next.observed)
    ensures HonestResult(next, sent)
  {
    RepeatedIsHonest(c, name, incarnation, r, prior, sent);
    OutcomeIsHonest(prior, next, CreatePane, sent);
  }

  // Naming the workspace in the handle changes nothing that is recorded.
  lemma NamedWorkspace(c: Command, name: string, incarnation: string, r: Receipt, result: NativeResult)
    requires c.body.StartBody? && result.handle.workspace == ""
    requires Repeats(c, name, incarnation, r, result)
    ensures Repeats(c, name, incarnation, r, result.(handle := result.handle.(workspace := c.body.start.workspace)))
  {
  }

  // A run whose last requested stage is confirmed is complete.
  lemma ConfirmedRun(r: Receipt, c: Command)
    requires ValidReceipt(r, c) && |r.stages| > 0 && r.stages[|r.stages| - 1].outcome == Confirmed
    requires |r.stages| == (if c.body.StopBody? then 2 else if PromptRequested(c) then 6 else 4)
    ensures Complete(Some(r), c)
  {
    if c.body.StartBody? { StartOutcomes(r.stages, c.body); } else { StopOutcomes(r.stages, c.body); }
  }

  // Up to its intent, a stage is not on record as confirmed.
  lemma NotConfirmedYet(trace: seq<Event>, c: Command, p: nat)
    requires WriteAhead(trace, c) && Durable(trace).Some? && IsLifecycle(c.body) && p < |StageOrder(c.body)|
    requires |Durable(trace).value.stages| <= 2 * p + 1
    ensures StageOutcome(Durable(trace).value, StageOrder(c.body)[p]) != Confirmed
  {
    hide WriteAhead, Durable, ReceiptSize;
    WriteAheadIsTruthful(trace, c);
    DurableIsValid(trace, c);
    NotConfirmed(Durable(trace).value, c, p);
  }

  lemma NotConfirmed(r: Receipt, c: Command, p: nat)
    requires ValidReceipt(r, c) && p < |StageOrder(c.body)| && |r.stages| <= 2 * p + 1
    ensures StageOutcome(r, StageOrder(c.body)[p]) != Confirmed
  {
    if c.body.StartBody? { StartOutcomes(r.stages, c.body); } else { StopOutcomes(r.stages, c.body); }
  }

  // A run is complete when its last stage is on record as confirmed.
  lemma CompleteByLast(trace: seq<Event>, c: Command)
    requires WriteAhead(trace, c) && Durable(trace).Some? && IsLifecycle(c.body)
    ensures var last := if c.body.StopBody? then ClosePane else if PromptRequested(c) then Prompt else Launch;
            Complete(Durable(trace), c) <==> StageOutcome(Durable(trace).value, last) == Confirmed
  {
    hide WriteAhead, Durable, ReceiptSize, StageHistory, Summarizes, Evidence;
    WriteAheadIsTruthful(trace, c);
    DurableIsValid(trace, c);
    StageDependencies(Durable(trace).value, c);
  }

  // The result a stage ends with: a rejected one was not attempted.
  function FinalResult(next: NativeResult, s: Stage, rejected: bool): NativeResult {
    if rejected then SetOutcome(next, s, NotAttempted) else next
  }

  lemma ReplacedWorkspace(c: Command, s: Stage, prior: NativeResult, next: NativeResult)
    requires Recordable(c, s, prior, next) && c.body.StartBody? && prior.handle.workspace == c.body.start.workspace
    ensures next.handle.workspace == c.body.start.workspace
  {
  }

  lemma UndoneRejection(r: NativeResult, s: Stage)
    requires ResultOutcome(r, s) == Unknown
    ensures SetOutcome(SetOutcome(r, s, NotAttempted), s, Unknown) == r
  {
  }

  lemma ConcludedReceipt(c: Command, name: string, incarnation: string, r: Receipt, prior: NativeResult,
                         next: NativeResult, p: nat, rejected: bool, sent: seq<Stage>)
    requires Runnable(c, name, incarnation) && ValidReceipt(r, c) && Repeats(c, name, incarnation, r, prior)
    requires p < |StageOrder(c.body)| && |r.stages| == 2 * p + 1
    requires StageOrder(c.body)[p] == Prompt ==> PromptRequested(c)
    requires Recordable(c, StageOrder(c.body)[p], prior, next)
    requires HonestRow(Some(r), sent) && SentOnce(sent, c)
    requires StageOrder(c.body)[p] in sent <==> !rejected
    ensures var s := StageOrder(c.body)[p];
            var final := FinalResult(next, s, rejected);
            var receipt := WireReceipt(final, name, incarnation, CommandWorkspace(c),
                                       r.stages + [StageEvent(s, false, ResultOutcome(final, s))]);
            && HonestResult(final, sent) && (!rejected ==> ResultOutcome(final, s) != NotAttempted)
            && Advance(Some(r), receipt, c) && ValidReceipt(receipt, c)
            && Repeats(c, name, incarnation, receipt, final)
            && |receipt.stages| == 2 * p + 2
            && receipt.stages[2 * p + 1].outcome == ResultOutcome(final, s) == StageOutcome(receipt, s)
  {
    hide ValidReceipt, Recordable, HandleMayReplace, WriteAhead;
    var s := StageOrder(c.body)[p];
    var final := FinalResult(next, s, rejected);
    RepeatedIsHonest(c, name, incarnation, r, prior, sent);
    RecordableOutcomes(c, s, prior, next);
    OutcomeIsHonest(prior, final, s, sent);
    OutcomeReceiptAdvances(c, name, incarnation, r, prior, next, p, ResultOutcome(final, s));
  }

  /******* The run *******/

  class LifecycleRun {
    const command: Command
    const name: string
    const incarnation: string

    var script: seq<Answer>
    // LifecycleResult, the adapter's in-memory observations
    var result: NativeResult
    // the panes that existed when the pane was about to be created
    var existing: seq<NativeView>
    // the hook's copy of the last receipt it saved
    var receipt: Receipt
    // the journal row
    var durable: Option<Receipt>

    // every commit and every native mutation so far
    ghost var trace: seq<Event>
    // the journal refused a receipt as invalid
    ghost var refused: bool
    // the created pane reported a provider that is neither undetected nor the requested one, and
    // the session was still the pinned one
    ghost var foreign: bool
    // the checks passed since the last native mutation
    ghost var fence: Fence
    // what the target check among them observed
    ghost var target: seq<View>

    constructor (c: Command, name: string, incarnation: string, script: seq<Answer>)
      requires Runnable(c, name, incarnation)
      ensures this.command == c && this.name == name && this.incarnation == incarnation && this.script == script
      ensures Safe() && trace == [] && !refused && !foreign && result == InitialResult(c)
      ensures receipt == WireReceipt(InitialResult(c), name, incarnation, CommandWorkspace(c), [])
      ensures At() == Situation(InitialResult(c).handle, [], script)
    {
      command, this.name, this.incarnation, this.script := c, name, incarnation, script;
      result, existing, durable := InitialResult(c), [], None;
      receipt := WireReceipt(InitialResult(c), name, incarnation, CommandWorkspace(c), []);
      trace, refused, foreign, fence, target := [], false, false, Unchecked, [];
    }

    // The promise kept at every point of the run.
    ghost predicate Safe()
      reads this`durable, this`trace
    {
      && Runnable(command, name, incarnation)
      && durable == Durable(trace)
      && WriteAhead(trace, command)
    }

    // Where the run stands.
    function At(): Situation
      reads this`result, this`existing, this`script
    {
      Situation(result.handle, existing, script)
    }

    // What this result would be recorded as.
    function Wire(r: NativeResult, stages: seq<StageEvent>): Receipt {
      WireReceipt(r, name, incarnation, CommandWorkspace(command), stages)
    }

    // The hook and the journal agree, and the result repeats the last receipt.
    ghost predicate Synced()
      reads this`durable, this`trace, this`receipt, this`result
    {
      && Safe()
      && durable == Some(receipt)
      && Repeats(command, name, incarnation, receipt, result)
    }

    method Ask() returns (a: Answer)
      modifies this`script
      ensures script == Rest(old(script))
      ensures a == NextAnswer(old(script))
      ensures KnownScript(old(script)) ==> KnownScript(script) && KnownSessionCodes(a.session)
    {
      if script == [] {
        a := Silence;
      } else {
        a, script := script[0], script[1..];
        assert KnownScript(old(script)) ==> forall i | 0 <= i < |script| :: script[i] == old(script)[i + 1];
      }
    }

    // lifecycleCheckSession
    method CheckSession() returns (err: Errors)
      modifies this`script, this`fence
      ensures err == [] <==> SessionHolds(NextAnswer(old(script)))
      ensures script == Rest(old(script))
      ensures fence == if err != [] then Unchecked else if old(fence) == TargetSeen then Passed else SessionSeen
      ensures |script| <= |old(script)|
      ensures KnownScript(old(script)) ==> KnownScript(script) && KnownSessionCodes(err)
    {
      var a := Ask();
      err := if a.expiry != Live then ExpiryErrors(a.expiry) else a.session;
      fence := if err != [] then Unchecked else if fence == TargetSeen then Passed else SessionSeen;
    }

    // ctx.Err() at the start of an operation
    method CheckContext() returns (err: Errors)
      modifies this`script
      ensures err == [] <==> NextAnswer(old(script)).expiry == Live
      ensures script == Rest(old(script))
      ensures |script| <= |old(script)|
      ensures KnownScript(old(script)) ==> KnownScript(script)
      ensures KnownSessionCodes(err)
    {
      var a := Ask();
      err := if a.expiry == Live then [] else Failure(UnavailableAgent, a.expiry);
    }

    // The transaction of journal.SaveLifecycle commits.
    method Commit(next: Receipt)
      requires Safe() && Advance(durable, next, command) && HonestRow(Some(next), Sent(trace))
      modifies this`durable, this`trace
      ensures Safe() && durable == Some(next) && Sent(trace) == Sent(old(trace))
    {
      SaveKeepsWriteAhead(trace, next, command);
      durable, trace := Some(next), trace + [Saved(next)];
    }

    // journal.SaveLifecycle: the row changes only to a valid advance, and a commit can go
    // unacknowledged.
    method Save(next: Receipt) returns (err: Errors)
      requires Safe() && HonestRow(Some(next), Sent(trace))
      modifies this`script, this`durable, this`trace, this`refused
      ensures Safe() && Sent(trace) == Sent(old(trace))
      ensures err == [] ==> durable == Some(next)
      ensures err == [] <==> Advance(old(durable), next, command) && NextAnswer(old(script)).storage.Stored?
      ensures !Advance(old(durable), next, command) ==> durable == old(durable)
      ensures Advance(old(durable), next, command) ==>
                durable == if NextAnswer(old(script)).storage.NotStored? then old(durable) else Some(next)
      ensures script == Rest(old(script))
      ensures durable == old(durable) || (durable == Some(next) && UnresolvedTarget !in err)
      ensures refused == (old(refused) || !Advance(old(durable), next, command))
      ensures |script| <= |old(script)| && (KnownScript(old(script)) ==> KnownScript(script))
    {
      hide Advance, HonestRow, Safe, KnownScript;
      var a := Ask();
      var valid := ValidateAdvance(durable, next, command);
      if !valid {
        refused, err := true, [OtherFailure];
      } else if a.storage.NotStored? {
        err := if a.storage.err == [] then [OtherFailure] else a.storage.err;
      } else {
        Commit(next);
        err := if a.storage.StoredWithoutReply? then [OtherFailure] else [];
      }
    }

    // The hook of node.lifecycleMutation: record the event, then publish it.
    method Hook(s: Stage, before: bool, r: NativeResult) returns (err: Errors)
      requires Safe() && !s.OtherStage?
      requires HonestResult(r, Sent(trace))
      modifies this`script, this`durable, this`trace, this`refused, this`receipt
      ensures Safe() && (old(durable).Some? ==> durable.Some?)
      ensures Sent(trace) == Sent(old(trace))
      ensures err == [] ==>
                durable == Some(receipt) &&
                receipt == Wire(r, old(receipt).stages + [StageEvent(s, before, ResultOutcome(r, s))])
      ensures refused == (old(refused) || !Advance(old(durable), Wire(r, old(receipt).stages
                                            + [StageEvent(s, before, ResultOutcome(r, s))]), command))
      ensures Advance(old(durable), Wire(r, old(receipt).stages
                        + [StageEvent(s, before, ResultOutcome(r, s))]), command) || durable == old(durable)
      ensures var next := Wire(r, old(receipt).stages + [StageEvent(s, before, ResultOutcome(r, s))]);
              Advance(old(durable), next, command) ==>
                && durable == (if NextAnswer(old(script)).storage.NotStored? then old(durable) else Some(next))
                && script == HookLeaves(old(script))
      ensures err == [] <==> && HookAccepts(old(script)) && Advance(old(durable), Wire(r, old(receipt).stages
                                  + [StageEvent(s, before, ResultOutcome(r, s))]), command)
      ensures err == [] ==> script == Rest(Rest(old(script)))
      ensures |script| <= |old(script)| && (KnownScript(old(script)) ==> KnownScript(script))
    {
      hide Advance, WriteAhead, HonestRow, HonestResult;
      var next := Wire(r, receipt.stages + [StageEvent(s, before, ResultOutcome(r, s))]);
      WireKeepsHonesty(r, next, Sent(trace));
      err := Save(next);
      if err != [] {
        return;
      }
      receipt := next;
      var a := Ask();
      if !a.published {
        err := if a.expiry == Live then [Canceled] else ExpiryErrors(a.expiry);
      }
    }

    /******* Native reads *******/

    // lifecycleWorkspace
    method CheckWorkspace() returns (err: Errors)
      modifies this`script
      ensures err == [] <==> WorkspaceSeen(NextAnswer(old(script)))
      ensures script == Rest(old(script))
      ensures |script| <= |old(script)|
      ensures KnownScript(old(script)) ==> KnownScript(script)
      ensures KnownSessionCodes(err)
    {
      var a := Ask();
      if a.fails {
        return Failure(UnavailableAgent, a.expiry);
      }
      err := if a.accepted then [] else Failure(ChangedTarget, Live);
    }

    // lifecyclePanes
    method ListPanes() returns (panes: seq<NativeView>, err: Errors)
      modifies this`script
      ensures err == [] <==> PanesSeen(NextAnswer(old(script)))
      ensures script == Rest(old(script))
      ensures err == [] ==> panes == NextAnswer(old(script)).panes.value
      ensures |script| <= |old(script)|
      ensures KnownScript(old(script)) ==> KnownScript(script)
      ensures KnownSessionCodes(err)
    {
      var a := Ask();
      panes := [];
      if a.fails || a.panes.None? {
        err := Failure(UnavailableAgent, if a.fails then a.expiry else Live);
      } else {
        panes, err := a.panes.value, [];
      }
    }

    // getAgent for the handle's target
    method GetAgent(h: NativeHandle) returns (view: NativeView, err: Errors)
      modifies this`script
      ensures err == [] <==> AgentSeen(h, NextAnswer(old(script)))
      ensures script == Rest(old(script))
      ensures err == [] ==> view == NextAnswer(old(script)).view.value
      ensures |script| <= |old(script)| && (old(script) == [] ==> err != [])
      ensures old(script) != [] ==> |script| < |old(script)|
      ensures KnownScript(old(script)) ==> KnownScript(script)
      ensures KnownSessionCodes(err)
    {
      var a := Ask();
      view := SomeView;
      if a.fails || a.view.None? {
        return view, Failure(UnavailableAgent, a.expiry);
      }
      view := a.view.value;
      if !SameTarget(h, view) {
        return view, Failure(ChangedTarget, a.expiry);
      }
      err := if a.expiry == Live then [] else Failure(UnavailableAgent, a.expiry);
    }

    // lifecycleShellReady
    method ShellReady() returns (err: Errors, ghost seen: seq<View>)
      modifies this`script
      ensures Refreshed(Launch, old(At())) == if err == [] then Some(At()) else None
      ensures err == [] ==> TargetReady(Launch, result.handle, seen)
      ensures |script| <= |old(script)|
      ensures KnownScript(old(script)) ==> KnownScript(script)
      ensures KnownSessionCodes(err)
    {
      var a := Ask();
      seen := [];
      if a.fails {
        return Failure(UnavailableAgent, a.expiry), seen;
      }
      if a.view.None? {
        return Failure(UnavailableAgent, Live), seen;
      }
      var pane := a.view.value;
      seen := [pane];
      if !Matches(result.handle, pane, false) {
        return Failure(ChangedTarget, Live), seen;
      }
      if pane.provider != UnknownProvider || pane.launchPending {
        return Failure(Precondition, Live), seen;
      }
      err := if pane.status == Working || pane.status == Blocked then Failure(BusyAgent, Live) else [];
    }

    // lifecyclePromptReady
    method PromptReady() returns (err: Errors, ghost seen: seq<View>)
      modifies this`script, this`result
      ensures result == old(result)
              || (ValidAgentStatus(result.observed) && result == old(result).(observed := result.observed))
      ensures err == [] ==> TargetReady(Prompt, result.handle, seen)
      ensures Refreshed(Prompt, old(At())) == if err == [] then Some(At()) else None
      ensures |script| <= |old(script)|
      ensures KnownScript(old(script)) ==> KnownScript(script)
      ensures KnownSessionCodes(err)
    {
      var agent;
      agent, err := GetAgent(result.handle);
      seen := [agent];
      if err != [] {
        return;
      }
      if !Matches(result.handle, agent, true) {
        return Failure(ChangedTarget, Live), seen;
      }
      result := result.(observed := agent.status);
      match agent.status {
        case Working => return Failure(BusyAgent, Live), seen;
        case Blocked => return Failure(BlockedAgent, Live), seen;
        case UnknownStatus => return Failure(Precondition, Live), seen;
        case _ =>
      }
      err := if !agent.interactiveReady || agent.launchPending then Failure(Precondition, Live) else [];
    }

    // lifecycleStopReady: the target is unchanged and not the workspace's last pane.
    method StopReady() returns (err: Errors, ghost seen: seq<View>)
      modifies this`script, this`result
      ensures result == old(result)
              || (ValidAgentStatus(result.observed) && result == old(result).(observed := result.observed))
      ensures err == [] ==> TargetReady(ClosePane, result.handle, seen)
      ensures Refreshed(ClosePane, old(At())) == if err == [] then Some(At()) else None
      ensures |script| <= |old(script)|
      ensures KnownScript(old(script)) ==> KnownScript(script)
      ensures KnownSessionCodes(err)
    {
      hide KnownScript, KnownSessionCodes;
      var h := result.handle;
      seen := [];
      err := CheckWorkspace();
      if err != [] {
        return;
      }
      var panes;
      panes, err := ListPanes();
      if err != [] {
        return;
      }
      err := FindPane(h, panes);
      if err != [] {
        return;
      }
      var agent;
      agent, err := GetAgent(h);
      seen := panes + [agent];
      if err != [] {
        return;
      }
      if !Matches(h, agent, true) {
        return Failure(ChangedTarget, Live), seen;
      }
      result := result.(observed := agent.status);
      assert seen[..|seen| - 1] == panes;
      err := NoError();
    }

    // The loop of lifecycleStopReady over the session's panes.
    method FindPane(h: NativeHandle, panes: seq<NativeView>) returns (err: Errors)
      ensures err == [] <==> PaneIsClosable(h, panes)
      ensures KnownSessionCodes(err)
    {
      assert !TwoInWorkspace(h, panes[..0]);
      hide Matches, TwoInWorkspace, KnownSessionCodes;
      var found, count := false, 0;
      for i := 0 to |panes|
        invariant found <==> exists j | 0 <= j < i :: panes[j].pane == h.pane
        invariant forall j | 0 <= j < i && panes[j].pane == h.pane :: Matches(h, panes[j], true)
        invariant 0 <= count && (count == 0 <==> forall j | 0 <= j < i :: panes[j].workspace != h.workspace)
        invariant count >= 2 <==> TwoInWorkspace(h, panes[..i])
      {
        CountedPanes(h, panes, i);
        if panes[i].workspace == h.workspace {
          count := count + 1;
        }
        if panes[i].pane == h.pane {
          if !Matches(h, panes[i], true) {
            return Failure(ChangedTarget, Live);
          }
          found := true;
        }
      }
      assert panes[..|panes|] == panes;
      if !found {
        return Failure(UnavailableAgent, Live);
      }
      if count < 2 {
        return Failure(LastPane, Live);
      }
      err := NoError();
    }

    /******* Native mutations *******/

    // The intent of stage s is durable and nothing has been sent for it.
    ghost predicate Armed(s: Stage)
      reads this`durable, this`trace, this`receipt, this`result
    {
      && Synced()
      && s in StageOrder(command.body) && s !in Sent(trace)
      && ResultOutcome(result, s) == Unknown
    }

    // The native request leaves the node.
    ghost method Send(s: Stage)
      requires Safe() && s in StageOrder(command.body) && s !in Sent(trace)
      requires DurableOutcome(durable, s) == Unknown
      requires fence == Passed && TargetReady(s, result.handle, target)
      modifies this`trace, this`fence
      ensures Safe() && Sent(trace) == Sent(old(trace)) + [s] && fence == Unchecked
    {
      hide WriteAhead, ValidReceipt, TargetReady, Durable, Sent, HonestRow, Runnable, SentOnce;
      DispatchKeepsWriteAhead(trace, s, command);
      trace, fence := trace + [Dispatched(s)], Unchecked;
    }

    method IsNew(panes: seq<NativeView>, v: NativeView) returns (isNew: bool)
      ensures isNew <==> NewAmong(panes, HandleOfView(v))
    {
      for i := 0 to |panes|
        invariant NewAmong(panes[..i], HandleOfView(v))
      {
        if panes[i].pane == v.pane || panes[i].terminal == v.terminal || panes[i].tab == v.tab {
          return false;
        }
      }
      assert panes[..|panes|] == panes;
      isNew := true;
    }

    // tab.create
    method CreateTab() returns (err: Errors)
      requires Armed(CreatePane) && command.body.StartBody?
      requires result.handle == NoHandle.(workspace := command.body.start.workspace)
      requires fence == Passed && TargetReady(CreatePane, result.handle, target)
      modifies this`script, this`result, this`trace, this`fence
      ensures Safe() && Sent(trace) == Sent(old(trace)) + [CreatePane] && fence == Unchecked
      ensures Mutated(command.body, CreatePane, old(At())) == if err == [] then Some(At()) else None
      ensures ForeignPane(command, result) || Recordable(command, CreatePane, old(result), result)
      ensures ForeignPane(command, result) ==>
              result == SetOutcome(old(result), CreatePane, Confirmed).(handle := result.handle)
      ensures ForeignPane(command, result) <==> ForeignTab(command.body, existing, NextAnswer(old(script)))
      ensures script == Rest(old(script))
      ensures err == [] ==> result.pane == Confirmed && result.handle.provider == UnknownProvider
      ensures result.pane == Confirmed ==> NewAmong(existing, result.handle)
      ensures |script| <= |old(script)|
      ensures KnownScript(old(script)) ==> KnownScript(script)
      ensures KnownSessionCodes(err)
    {
      hide TargetReady, NextAnswer, SessionHolds, HandleMayReplace, WriteAhead, HonestRow, ValidReceipt, Recordable,
           NewAmong, KnownSessionCodes;
      UnchangedIsRecordable(command, CreatePane, result);
      Send(CreatePane);
      var a := Ask();
      if a.fails {
        return Failure(IndeterminateEffect, a.expiry);
      }
      if a.created.None? || !a.created.value.tabMatches
        || a.created.value.pane.workspace != command.body.start.workspace
      {
        return Failure(IndeterminateEffect, Live);
      }
      var pane := a.created.value.pane;
      var isNew := IsNew(existing, pane);
      if !isNew {
        return Failure(IndeterminateEffect, Live);
      }
      CreatedPaneIsRecordable(command, result, pane);
      result := result.(handle := HandleOfView(pane), pane := Confirmed);
      err := if pane.provider != UnknownProvider || a.created.value.focused then Failure(Precondition, Live)
             else NoError();
    }

    // waitLifecycleLaunch: poll until the requested provider is interactive.
    method WaitLaunch(ghost prior: NativeResult) returns (err: Errors, ghost seen: View)
      requires Watched(command, prior, result) && !prior.handle.provider.Named?
      modifies this`script, this`result
      ensures Watched(command, prior, result)
      ensures err == [] ==> Launched(command.body, seen) && result.handle == HandleOfView(seen)
      ensures Awaited(command.body, old(At())) == if err == [] then Some(At()) else None
      ensures |script| <= |old(script)|
      ensures KnownScript(old(script)) ==> KnownScript(script)
      ensures KnownSessionCodes(err)
    {
      hide HandleMayReplace, KnownSessionCodes, KnownScript;
      while true
        invariant Watched(command, prior, result)
        invariant Awaited(command.body, At()) == Awaited(command.body, old(At()))
        invariant |script| <= |old(script)|
        invariant KnownScript(old(script)) ==> KnownScript(script)
        decreases |script|
      {
        var observed;
        observed, err := GetAgent(result.handle);
        seen := observed;
        if err != [] {
          return Join(Failure(IndeterminateEffect, Live), err), seen;
        }
        if !Matches(result.handle, observed, false)
          || (observed.provider != command.body.start.provider && observed.provider != UnknownProvider)
        {
          return Join(Failure(IndeterminateEffect, Live), Failure(ChangedTarget, Live)), seen;
        }
        ObservedAgentMayReplace(command, prior.handle, result.handle, observed);
        result := result.(handle := HandleOfView(observed), observed := observed.status);
        if observed.status == Blocked {
          return Failure(BlockedAgent, Live), seen;
        }
        if observed.provider == command.body.start.provider && observed.interactiveReady && !observed.launchPending {
          return NoError(), seen;
        }
        var wait := Ask();
        if wait.expiry != Live {
          return Failure(IndeterminateEffect, wait.expiry), seen;
        }
      }
    }

    // The reply to agent.start: the pane is the same, and the launch is under way.
    method AcceptLaunch() returns (err: Errors)
      requires command.body.StartBody?
      requires result.handle.workspace == command.body.start.workspace && !result.handle.provider.Named?
      modifies this`script, this`result
      ensures Replied(command.body, old(At())) == if err == [] then Some(At()) else None
      ensures err != [] ==> result == old(result)
      ensures err == [] ==> Watched(command, old(result), result)
      ensures |script| <= |old(script)|
      ensures KnownScript(old(script)) ==> KnownScript(script)
      ensures KnownSessionCodes(err)
    {
      hide NextAnswer, HandleMayReplace, KnownSessionCodes, KnownScript, Matches;
      var a := Ask();
      if a.fails {
        return Failure(IndeterminateEffect, a.expiry);
      }
      if a.view.None? || !a.accepted || !Matches(result.handle, a.view.value, false)
        || (a.view.value.provider != command.body.start.provider
            && !(a.view.value.provider == UnknownProvider && a.view.value.launchPending))
      {
        return Failure(IndeterminateEffect, Live);
      }
      SameHandleMayReplace(command, result.handle);
      ObservedAgentMayReplace(command, result.handle, result.handle, a.view.value);
      result := result.(handle := HandleOfView(a.view.value), observed := a.view.value.status);
      err := NoError();
    }

    // agent.start, then the wait for the requested provider
    method StartNative() returns (err: Errors, ghost seen: View)
      requires Armed(Launch) && command.body.StartBody?
      requires result.handle.workspace == command.body.start.workspace && !result.handle.provider.Named?
      requires fence == Passed && TargetReady(Launch, result.handle, target)
      modifies this`script, this`result, this`trace, this`fence
      ensures Safe() && Sent(trace) == Sent(old(trace)) + [Launch] && fence == Unchecked
      ensures Mutated(command.body, Launch, old(At())) == if err == [] then Some(At()) else None
      ensures Recordable(command, Launch, old(result), result)
      ensures err == [] ==> result.launch == Confirmed && Launched(command.body, seen)
      ensures result.launch == Confirmed ==> err == []
      ensures |script| <= |old(script)|
      ensures KnownScript(old(script)) ==> KnownScript(script)
      ensures KnownSessionCodes(err)
    {
      hide TargetReady, NextAnswer, SessionHolds, HandleMayReplace, WriteAhead, HonestRow, ValidReceipt, Recordable,
           KnownSessionCodes, KnownScript, Replied, Awaited, Matches;
      UnchangedIsRecordable(command, Launch, result);
      Send(Launch);
      seen := SomeView;
      err := AcceptLaunch();
      if err != [] {
        return;
      }
      err, seen := WaitLaunch(old(result));
      WatchedIsRecordable(command, old(result), result);
      if err == [] {
        result := result.(launch := Confirmed);
      }
    }

    // agent.prompt
    method PromptNative() returns (err: Errors)
      requires Armed(Prompt)
      requires fence == Passed && TargetReady(Prompt, result.handle, target)
      modifies this`script, this`result, this`trace, this`fence
      ensures Safe() && Sent(trace) == Sent(old(trace)) + [Prompt] && fence == Unchecked
      ensures Mutated(command.body, Prompt, old(At())) == if err == [] then Some(At()) else None
      ensures Recordable(command, Prompt, old(result), result)
      ensures err == [] <==> result.prompt == Confirmed
      ensures |script| <= |old(script)|
      ensures KnownScript(old(script)) ==> KnownScript(script)
      ensures KnownSessionCodes(err)
    {
      hide TargetReady, NextAnswer, SessionHolds, HandleMayReplace, WriteAhead, HonestRow, ValidReceipt, Recordable,
           KnownSessionCodes, KnownScript;
      UnchangedIsRecordable(command, Prompt, result);
      Send(Prompt);
      var a := Ask();
      if a.fails {
        return Failure(IndeterminateEffect, a.expiry);
      }
      if a.view.None? || !Matches(result.handle, a.view.value, true) {
        return Failure(IndeterminateEffect, Live);
      }
      ConfirmedIsRecordable(command, Prompt, result, a.view.value.status);
      result := result.(observed := a.view.value.status, prompt := Confirmed);
      err := NoError();
    }

    method GoneFrom(panes: seq<NativeView>, h: NativeHandle) returns (gone: bool)
      ensures gone <==> Absent(panes, h)
      ensures gone <==> forall v | v in panes :: v.pane != h.pane && v.terminal != h.terminal
    {
      for i := 0 to |panes|
        invariant Absent(panes[..i], h) && forall v | v in panes[..i] :: v.pane != h.pane && v.terminal != h.terminal
      {
        if panes[i].pane == h.pane || panes[i].terminal == h.terminal {
          return false;
        }
      }
      assert panes[..|panes|] == panes;
      gone := true;
    }

    method CheckVanished(e: Expiry) returns (err: Errors, ghost left: seq<View>)
      modifies this`script
      ensures Vanished(old(At())) == if err == [] then Some(At()) else None
      ensures err == [] ==> forall v | v in left :: v.pane != result.handle.pane && v.terminal != result.handle.terminal
      ensures err == [] ==> NextAnswer(old(script)).panes == Some(left)
      ensures |script| <= |old(script)|
      ensures KnownScript(old(script)) ==> KnownScript(script)
      ensures KnownSessionCodes(err)
    {
      hide NextAnswer, Absent, KnownSessionCodes, KnownScript;
      var after;
      after, err := ListPanes();
      left := after;
      if err != [] {
        return Failure(IndeterminateEffect, e), left;
      }
      var gone := GoneFrom(after, result.handle);
      if !gone {
        return Failure(IndeterminateEffect, Live), left;
      }
      err := CheckWorkspace();
      if err != [] {
        err := Failure(IndeterminateEffect, e);
      }
    }

    // pane.close, then proof that the pane and its terminal are gone and the workspace is not
    method CloseNative() returns (err: Errors, ghost left: seq<View>)
      requires Armed(ClosePane)
      requires fence == Passed && TargetReady(ClosePane, result.handle, target)
      modifies this`script, this`result, this`trace, this`fence
      ensures Safe() && Sent(trace) == Sent(old(trace)) + [ClosePane] && fence == Unchecked
      ensures Mutated(command.body, ClosePane, old(At())) == if err == [] then Some(At()) else None
      ensures Recordable(command, ClosePane, old(result), result)
      ensures err == [] ==>
                && result.stop == Confirmed
                && forall v | v in left :: v.pane != result.handle.pane && v.terminal != result.handle.terminal
      ensures result.stop == Confirmed ==> err == []
      ensures |script| <= |old(script)|
      ensures KnownScript(old(script)) ==> KnownScript(script)
      ensures KnownSessionCodes(err)
    {
      hide TargetReady, NextAnswer, SessionHolds, HandleMayReplace, WriteAhead, HonestRow, ValidReceipt, Recordable,
           Absent, KnownSessionCodes, KnownScript, Matches, Vanished, Runnable;
      UnchangedIsRecordable(command, ClosePane, result);
      Send(ClosePane);
      left := [];
      var a := Ask();
      if a.fails {
        return Failure(IndeterminateEffect, a.expiry), left;
      }
      err, left := CheckVanished(a.expiry);
      if err != [] {
        return;
      }
      ConfirmedIsRecordable(command, ClosePane, result, result.observed);
      result := result.(stop := Confirmed);
      err := NoError();
    }

    /******* Stages *******/

    // The read-only checks that are repeated between a stage's intent and its mutation.
    method Refresh(s: Stage) returns (err: Errors)
      requires fence == SessionSeen
      modifies this`script, this`result, this`existing, this`fence, this`target
      ensures fence == if err == [] then TargetSeen else Unchecked
      ensures err == [] ==> TargetReady(s, result.handle, target)
      ensures Refreshed(s, old(At())) == if err == [] then Some(At()) else None
      ensures result == old(result)
              || (ValidAgentStatus(result.observed) && result == old(result).(observed := result.observed))
      ensures |script| <= |old(script)|
      ensures KnownScript(old(script)) ==> KnownScript(script)
      ensures KnownSessionCodes(err)
    {
      hide KnownScript, KnownSessionCodes;
      fence := Unchecked;
      match s {
        case CreatePane =>
          var directory := Ask();
          if !directory.accepted {
            return Failure(Precondition, Live);
          }
          err := CheckWorkspace();
          if err != [] {
            return;
          }
          existing, err := ListPanes();
        case Launch =>
          err, target := ShellReady();
        case Prompt =>
          err, target := PromptReady();
        case _ =>
          err, target := StopReady();
      }
      fence := if err == [] then TargetSeen else Unchecked;
    }

    // What stage s relies on in the handle it starts from.
    predicate StageHandle(s: Stage)
      reads this`result
    {
      match s
      case CreatePane =>
        command.body.StartBody? && result.handle == NoHandle.(workspace := command.body.start.workspace)
      case Launch =>
        && command.body.StartBody? && result.handle.workspace == command.body.start.workspace
        && !result.handle.provider.Named?
      case _ => true
    }

    // The effect closures of startAgent and stopAgent
    method Mutate(s: Stage) returns (err: Errors)
      requires Armed(s) && StageHandle(s) && fence == Passed && TargetReady(s, result.handle, target)
      modifies this`script, this`result, this`trace, this`fence
      ensures Safe() && Sent(trace) == Sent(old(trace)) + [s] && fence == Unchecked
      ensures Recordable(command, s, old(result), result)
              || (s == CreatePane && ForeignPane(command, result)
                  && result == SetOutcome(old(result), s, Confirmed).(handle := result.handle))
      ensures err == [] ==> ResultOutcome(result, s) == Confirmed && Recordable(command, s, old(result), result)
      ensures Mutated(command.body, s, old(At())) == if err == [] then Some(At()) else None
      ensures err == [] && s == CreatePane ==> result.handle.provider == UnknownProvider
      ensures s == CreatePane ==>
                && (ForeignPane(command, result) <==> ForeignTab(command.body, existing, NextAnswer(old(script))))
                && script == Rest(old(script))
      ensures s != CreatePane ==> Recordable(command, s, old(result), result)
      ensures s != CreatePane && ResultOutcome(result, s) == Confirmed ==> err == []
      ensures |script| <= |old(script)|
      ensures KnownScript(old(script)) ==> KnownScript(script)
      ensures KnownSessionCodes(err)
    {
      hide TargetReady, HandleMayReplace, WriteAhead, HonestRow, ValidReceipt, Recordable, KnownSessionCodes,
           KnownScript;
      ghost var seen, left;
      match s {
        case CreatePane => err := CreateTab();
        case Launch => err, seen := StartNative();
        case Prompt => err := PromptNative();
        case ClosePane => err, left := CloseNative();
        case OtherStage(_) => assert false;
      }
    }

    // What lifecycleGuardedEffect leaves behind.
    ghost predicate Attempted(s: Stage, prior: NativeResult, sent: seq<Stage>, rejected: bool)
      reads this`durable, this`trace, this`result, this`foreign, this`fence
    {
      && Safe()
      && (ResultOutcome(result, s) == Confirmed && !foreign ==> fence == SessionSeen)
      && Sent(trace) == (if rejected then sent else sent + [s])
      && (if foreign then
            !rejected && s == CreatePane && ForeignPane(command, result)
            && result == SetOutcome(prior, s, Confirmed).(handle := result.handle, observed := result.observed)
          else
            Recordable(command, s, prior, result) && (rejected ==> ResultOutcome(result, s) == Unknown))
    }

    // lifecycleGuardedEffect: the session is checked before and after the refreshed checks.
    method GuardedEffect(s: Stage) returns (rejected: bool, err: Errors)
      requires Armed(s) && StageHandle(s) && !foreign
      modifies this`script, this`result, this`existing, this`trace, this`foreign, this`fence, this`target
      ensures Attempted(s, old(result), old(Sent(trace)), rejected)
      ensures rejected ==> err != []
      ensures foreign <==> s == CreatePane && ForeignGuarded(command.body, old(At()))
      ensures Guarded(command.body, s, old(At())) == if err == [] then Some(At()) else None
      ensures s != CreatePane && ResultOutcome(result, s) == Confirmed ==> err == []
      ensures err == [] ==> !foreign && ResultOutcome(result, s) == Confirmed
      ensures err == [] && s == CreatePane ==> result.handle.provider == UnknownProvider
      ensures |script| <= |old(script)|
      ensures KnownScript(old(script)) ==> KnownScript(script) && KnownSessionCodes(err)
    {
      hide TargetReady, NextAnswer, SessionHolds, HandleMayReplace, WriteAhead, HonestRow, ValidReceipt, Recordable,
           Repeats, Runnable, ForeignPane, KnownSessionCodes, KnownScript, Refreshed, Fenced, Rest, Sent, Durable,
           ForeignFenced;
      var prior := result;
      ObservationIsRepeated(command, name, incarnation, receipt, prior, prior);
      UnchangedIsRecordable(command, s, prior);
      rejected, fence := true, Unchecked;
      err := CheckSession();
      if err != [] {
        return;
      }
      var refreshErr := Refresh(s);
      RefreshedIsRecordable(command, s, prior, result);
      ObservationIsRepeated(command, name, incarnation, receipt, prior, result);
      err := CheckSession();
      if err != [] {
        result := prior;
        return;
      }
      if refreshErr != [] {
        err := refreshErr;
        return;
      }
      rejected := false;
      err := FencedMutation(s, prior);
    }

    // The end of lifecycleGuardedEffect: the session is checked again after the mutation, and its
    // observations are dropped when the session was replaced.
    method FencedMutation(s: Stage, prior: NativeResult) returns (err: Errors)
      requires Armed(s) && StageHandle(s) && !foreign && fence == Passed && TargetReady(s, result.handle, target)
      requires result == prior.(observed := result.observed)
      requires prior.observed == NoStatus || ValidAgentStatus(prior.observed)
      modifies this`script, this`result, this`trace, this`foreign, this`fence
      ensures Attempted(s, prior, old(Sent(trace)), false)
      ensures foreign <==> s == CreatePane && ForeignFenced(command.body, old(At()))
      ensures Fenced(command.body, s, old(At())) == if err == [] then Some(At()) else None
      ensures s != CreatePane && ResultOutcome(result, s) == Confirmed ==> err == []
      ensures err == [] ==> !foreign && ResultOutcome(result, s) == Confirmed
      ensures err == [] && s == CreatePane ==> result.handle.provider == UnknownProvider
      ensures |script| <= |old(script)|
      ensures KnownScript(old(script)) ==> KnownScript(script) && KnownSessionCodes(err)
    {
      hide NextAnswer, SessionHolds, WriteAhead, HonestRow, ValidReceipt, Recordable, ForeignPane, Runnable, Repeats,
           KnownSessionCodes, KnownScript, Mutated, Rest, ForeignTab;
      UnchangedIsRecordable(command, s, prior);
      err := Mutate(s);
      var sessionErr := CheckSession();
      if sessionErr != [] {
        result := prior;
        return Join(Join(Failure(IndeterminateEffect, Live), err), sessionErr);
      }
      if s == CreatePane && ForeignPane(command, result) { ForeignIsNotRecordable(command, old(result), result); }
      foreign := !Recordable(command, s, old(result), result);
      if !foreign { RecordableSinceRefresh(command, s, prior, old(result), result); }
    }

    // The run stands before the p-th stage s.
    ghost predicate Standing(s: Stage, p: nat)
      reads this`durable, this`trace, this`receipt, this`result
    {
      && Synced()
      && ReadyFor(receipt, command, p) && s == StageOrder(command.body)[p]
      && (s == Prompt ==> PromptRequested(command))
    }

    // The first half of lifecycleEffect: the intent is durable before anything is sent.
    method Intend(s: Stage, p: nat) returns (err: Errors)
      requires Standing(s, p) && !refused
      modifies this`script, this`durable, this`trace, this`refused, this`receipt, this`result
      ensures Safe() && durable.Some? && !refused && Sent(trace) == Sent(old(trace))
      ensures |durable.value.stages| <= 2 * p + 1
      ensures err != [] ==> result == old(result)
      ensures err == [] ==>
                && Armed(s) && ValidReceipt(receipt, command) && |receipt.stages| == 2 * p + 1
                && result == SetOutcome(old(result), s, Unknown)
                && script == Rest(Rest(old(script)))
      ensures err == [] <==> HookAccepts(old(script))
      ensures |script| <= |old(script)|
      ensures KnownScript(old(script)) ==> KnownScript(script)
      ensures KnownSessionCodes(err)
    {
      hide WriteAhead, ValidReceipt, KnownSessionCodes, KnownScript, Durable, Sent, Runnable, HonestResult, Rest;
      var intent := SetOutcome(result, s, Unknown);
      WriteAheadIsTruthful(trace, command);
      NothingSentYet(command, receipt, Sent(trace), p);
      RepeatedIsHonest(command, name, incarnation, receipt, result, Sent(trace));
      IntentIsHonest(result, s, Sent(trace));
      IntentReceiptAdvances(command, name, incarnation, receipt, result, p);
      err := Hook(s, true, intent);
      if err != [] {
        return Failure(Persistence, Live);
      }
      result, err := intent, NoError();
    }

    // The second half of lifecycleEffect: what became of the stage is recorded, and a rejection
    // that cannot be recorded stays unknown.
    method Conclude(s: Stage, p: nat, ghost prior: NativeResult, ghost sent: seq<Stage>, rejected: bool,
          effectErr: Errors)
      returns (err: Errors)
      requires Attempted(s, prior, sent, rejected)
      requires durable == Some(receipt) && ValidReceipt(receipt, command) && |receipt.stages| == 2 * p + 1
      requires Repeats(command, name, incarnation, receipt, prior)
      requires p < |StageOrder(command.body)| && s == StageOrder(command.body)[p]
      requires s == Prompt ==> PromptRequested(command)
      requires !refused && (rejected || foreign ==> effectErr != []) && s !in sent
      modifies this`script, this`durable, this`trace, this`refused, this`receipt, this`result
      ensures Safe() && durable.Some? && Sent(trace) == Sent(old(trace))
      ensures refused == foreign && (foreign ==> durable == old(durable))
      ensures |durable.value.stages| <= 2 * p + 2
      ensures !foreign ==>
                && (StageOutcome(durable.value, s) == Confirmed <==>
                    ResultOutcome(old(result), s) == Confirmed && !NextAnswer(old(script)).storage.NotStored?)
                && script == HookLeaves(old(script))
      ensures result == old(result)
              || (&& rejected && result == SetOutcome(old(result), s, NotAttempted)
                  && durable == Some(receipt) && StageOutcome(receipt, s) == NotAttempted)
      ensures err == [] ==>
                && effectErr == [] && Synced() && !refused
                && |receipt.stages| == 2 * p + 2 && ValidReceipt(receipt, command)
                && receipt.stages[2 * p + 1].outcome == ResultOutcome(result, s)
                && script == Rest(Rest(old(script)))
      ensures err == [] <==> effectErr == [] && HookAccepts(old(script))
      ensures |script| <= |old(script)|
      ensures KnownScript(old(script)) ==> KnownScript(script)
      ensures KnownSessionCodes(effectErr) ==> KnownSessionCodes(err)
    {
      hide WriteAhead, ValidReceipt, Recordable, Repeats, ForeignPane, HonestRow, HonestResult, SentOnce, WireReceipt,
           Advance, Runnable, KnownSessionCodes, KnownScript, HookAccepts, HookLeaves, NextAnswer, Rest, Sent, Durable;
      WriteAheadIsTruthful(trace, command);
      NotConfirmed(receipt, command, p);
      if foreign {
        ForeignIsHonest(command, name, incarnation, receipt, prior, result, Sent(trace));
        ForeignReceiptIsRefused(command, name, incarnation, durable, result,
                                receipt.stages + [StageEvent(s, false, ResultOutcome(result, s))]);
      } else {
        ConcludedReceipt(command, name, incarnation, receipt, prior, result, p, rejected, Sent(trace));
      }
      if rejected {
        result := SetOutcome(result, s, NotAttempted);
      }
      var hookErr := Hook(s, false, result);
      if hookErr == [] {
        return effectErr;
      }
      if ResultOutcome(result, s) == NotAttempted {
        UndoneRejection(old(result), s);
        result := SetOutcome(result, s, Unknown);
        return Join(effectErr, Join(Failure(Persistence, Live), Failure(IndeterminateEffect, Live)));
      }
      return Join(effectErr, Failure(Persistence, Live));
    }

    // Between the intent and the outcome.
    method Try(s: Stage) returns (rejected: bool, err: Errors)
      requires Armed(s) && StageHandle(s) && !foreign
      modifies this`script, this`result, this`existing, this`trace, this`foreign, this`fence, this`target
      ensures Attempted(s, old(result), old(Sent(trace)), rejected)
      ensures foreign <==> s == CreatePane && ForeignTried(command.body, old(At()))
      ensures Tried(command.body, s, old(At())) == if err == [] then Some(At()) else None
      ensures s != CreatePane && ResultOutcome(result, s) == Confirmed ==> err == []
      ensures Sent(trace) == if rejected then old(Sent(trace)) else old(Sent(trace)) + [s]
      ensures (rejected || foreign ==> err != []) && (foreign ==> !rejected)
      ensures err == [] ==> ResultOutcome(result, s) == Confirmed && (s == CreatePane ==> StageHandle(Launch))
      ensures |script| <= |old(script)|
      ensures KnownScript(old(script)) ==> KnownScript(script) && KnownSessionCodes(err)
    {
      hide NextAnswer, SessionHolds, WriteAhead, ValidReceipt, Recordable, HonestRow, WireReceipt, Runnable,
           KnownSessionCodes, KnownScript, Guarded, Rest, Repeats, ForeignGuarded;
      rejected := true;
      ObservationIsRepeated(command, name, incarnation, receipt, result, result);
      UnchangedIsRecordable(command, s, result);
      err := CheckContext();
      if err == [] {
        rejected, err := GuardedEffect(s);
        if err == [] && s == CreatePane { ReplacedWorkspace(command, s, old(result), result); }
      }
    }

    /** lifecycleEffect: one stage, from its intent to its outcome.  At most one native mutation is
        sent, after the intent is durable; the stage is left confirmed and durable, or the run ends
        with an error.  The journal refuses a receipt exactly when the answers lead to a foreign pane,
        and then the row still says that the pane may have been created. */
    method Effect(s: Stage, p: nat) returns (err: Errors)
      requires Standing(s, p) && StageHandle(s) && !refused && !foreign
      modifies this`script, this`result, this`existing, this`trace, this`foreign, this`fence, this`target,
               this`durable, this`refused, this`receipt
      ensures Safe() && durable.Some? && refused == foreign
      ensures refused <==> s == CreatePane && ForeignStage(command.body, old(At()))
      ensures refused ==> Sent(trace) == Sent(old(trace)) + [s] && durable.value.pane == Unknown
      ensures Sent(trace) == Sent(old(trace)) || Sent(trace) == Sent(old(trace)) + [s]
      ensures err == [] ==>
                && Synced() && !foreign && s in Sent(trace)
                && |receipt.stages| == 2 * p + 2 && ValidReceipt(receipt, command)
                && receipt.stages[2 * p + 1].outcome == Confirmed
                && (s == CreatePane ==> StageHandle(Launch))
      ensures StageCourse(command.body, s, old(At())) == if err == [] then Some(At()) else None
      ensures |durable.value.stages| <= 2 * p + 2
      ensures s != CreatePane ==>
                && (StageOutcome(durable.value, s) == Confirmed <==> StageStored(command.body, s, old(At())).Some?)
                && (StageStored(command.body, s, old(At())).Some? ==>
                      script == StageStored(command.body, s, old(At())).value)
      ensures |script| <= |old(script)|
      ensures KnownScript(old(script)) ==> KnownScript(script) && KnownSessionCodes(err)
    {
      hide NextAnswer, SessionHolds, WriteAhead, ValidReceipt, Recordable, HonestRow, WireReceipt, Advance, Runnable,
           KnownSessionCodes, KnownScript, Tried, HookAccepts, Rest, Attempted, HonestResult, Repeats, Sent, Durable,
           ForeignTried;
      NotConfirmedYet(trace, command, p);
      err := CheckContext();
      if err != [] {
        return;
      }
      err := Intend(s, p);
      NotConfirmedYet(trace, command, p);
      if err != [] {
        return;
      }
      var prior := result;
      if s == CreatePane { UnknownIsRecorded(command, name, incarnation, receipt, result); }
      var rejected, effectErr := Try(s);
      err := Conclude(s, p, prior, Sent(old(trace)), rejected, effectErr);
    }

    /******* Whole runs *******/

    // The journal holds the initial checkpoint and nothing has happened yet.
    ghost predicate Starting()
      reads this`durable, this`trace, this`receipt, this`result, this`refused, this`foreign
    {
      && Synced() && ValidReceipt(receipt, command) && receipt.stages == [] && Sent(trace) == []
      && result == InitialResult(command) && !refused && !foreign
    }

    // What a run leaves behind, however it ends.
    ghost predicate Ended(err: Errors)
      reads this`durable, this`trace, this`receipt, this`result, this`refused, this`foreign
    {
      && Safe() && durable.Some? && refused == foreign
      && (err == [] ==> Complete(durable, command) && !refused)
    }

    // The checks and the connection that come before a run's first native read.
    method Open() returns (err: Errors)
      modifies this`script
      ensures Opened(old(At())) == if err == [] then Some(At()) else None
      ensures |script| <= |old(script)|
      ensures KnownScript(old(script)) ==> KnownScript(script)
      ensures KnownSessionCodes(err)
    {
      var request := Ask();
      if !request.accepted {
        return Failure(Precondition, Live);
      }
      var observer := Ask();
      err := if observer.fails then Failure(UnavailableAgent, observer.expiry)
             else if !observer.accepted then Failure(UnsupportedOperation, observer.expiry)
             else NoError();
    }

    // startAgent up to its first effect
    method Prepare() returns (err: Errors)
      modifies this`script, this`existing
      ensures Prepared(old(At())) == if err == [] then Some(At()) else None
      ensures |script| <= |old(script)|
      ensures KnownScript(old(script)) ==> KnownScript(script)
      ensures KnownSessionCodes(err)
    {
      hide KnownScript, KnownSessionCodes;
      err := Open();
      if err != [] {
        return;
      }
      err := CheckWorkspace();
      if err != [] {
        return;
      }
      existing, err := ListPanes();
    }

    method MakePane() returns (err: Errors)
      requires Starting() && command.body.StartBody?
      modifies this`script, this`result, this`existing, this`trace, this`foreign, this`fence, this`target,
               this`durable, this`refused, this`receipt
      ensures Safe() && durable.Some? && refused == foreign
      ensures err == [] ==> Standing(Launch, 1) && StageHandle(Launch) && !refused
      ensures refused <==> ForeignStart(command.body, old(At()))
      ensures refused ==> Sent(trace) == [CreatePane] && durable.value.pane == Unknown
      ensures PaneCourse(command.body, old(At())) == if err == [] then Some(At()) else None
      ensures |durable.value.stages| <= 2
      ensures KnownScript(old(script)) ==> KnownScript(script) && KnownSessionCodes(err)
    {
      hide NextAnswer, SessionHolds, WriteAhead, ValidReceipt, HonestRow, WireReceipt, Advance, Runnable,
           KnownSessionCodes, KnownScript, StageCourse, StageStored, Prepared, Rest, Repeats, Sent, Durable,
           ForeignStage;
      err := Prepare();
      if err != [] {
        return;
      }
      NamedWorkspace(command, name, incarnation, receipt, result);
      result := result.(handle := result.handle.(workspace := command.body.start.workspace));
      err := Effect(CreatePane, 0);
    }

    method LaunchAgent() returns (err: Errors)
      requires Standing(Launch, 1) && StageHandle(Launch) && !refused && !foreign
      modifies this`script, this`result, this`existing, this`trace, this`foreign, this`fence, this`target,
               this`durable, this`refused, this`receipt
      ensures Safe() && durable.Some? && refused == foreign
      ensures !refused
      ensures err == [] ==>
                && !refused
                && if PromptRequested(command) then Standing(Prompt, 2) else Complete(durable, command)
      ensures CheckedCourse(command.body, Launch, old(At())) == if err == [] then Some(At()) else None
      ensures |durable.value.stages| <= 4
      ensures var stored := CheckedStored(command.body, Launch, old(At()));
              (StageOutcome(durable.value, Launch) == Confirmed <==> stored.Some?)
              && (stored.Some? ==> script == stored.value)
      ensures KnownScript(old(script)) ==> KnownScript(script) && KnownSessionCodes(err)
    {
      hide NextAnswer, SessionHolds, WriteAhead, ValidReceipt, Repeats, Runnable, Complete, KnownSessionCodes,
           KnownScript, StageCourse, StageStored, Refreshed, Rest, Durable;
      NotConfirmedYet(trace, command, 1);
      ghost var seen;
      err, seen := ShellReady();
      if err != [] {
        return;
      }
      err := Effect(Launch, 1);
      if err == [] && !PromptRequested(command) { ConfirmedRun(receipt, command); }
    }

    method SubmitPrompt() returns (err: Errors)
      requires Standing(Prompt, 2) && !refused && !foreign
      modifies this`script, this`result, this`existing, this`trace, this`foreign, this`fence, this`target,
               this`durable, this`refused, this`receipt
      ensures !refused
      ensures Ended(err)
      ensures CheckedCourse(command.body, Prompt, old(At())) == if err == [] then Some(At()) else None
      ensures var stored := CheckedStored(command.body, Prompt, old(At()));
              (StageOutcome(durable.value, Prompt) == Confirmed <==> stored.Some?)
              && (stored.Some? ==> script == stored.value)
      ensures KnownScript(old(script)) ==> KnownScript(script) && KnownSessionCodes(err)
    {
      hide NextAnswer, SessionHolds, WriteAhead, ValidReceipt, WireReceipt, Runnable, KnownSessionCodes, KnownScript,
           StageCourse, StageStored, Refreshed, Rest, Durable;
      NotConfirmedYet(trace, command, 2);
      ghost var seen;
      err, seen := PromptReady();
      if err != [] {
        return;
      }
      err := Effect(Prompt, 2);
      if err == [] { ConfirmedRun(receipt, command); }
    }

    /** startAgent: create a pane, launch the provider in it, and submit the initial prompt when one
        was asked for. */
    method Start() returns (err: Errors)
      requires Starting() && command.body.StartBody?
      modifies this`script, this`result, this`existing, this`trace, this`foreign, this`fence, this`target,
               this`durable, this`refused, this`receipt
      ensures Ended(err)
      ensures refused <==> ForeignStart(command.body, old(At()))
      ensures refused ==> Sent(trace) == [CreatePane] && durable.value.pane == Unknown
      ensures StartCourse(command.body, PromptRequested(command), old(At())) == if err == [] then Some(At()) else None
      ensures var stored := StartStored(command.body, PromptRequested(command), old(At()));
              (Complete(durable, command) <==> stored.Some?) && (stored.Some? ==> script == stored.value)
      ensures Complete(durable, command) <==>
              exists k: nat :: T.StartAnswers(command.body.start, PromptRequested(command), old(script), 0, k)
      ensures KnownScript(old(script)) ==> KnownScript(script) && KnownSessionCodes(err)
    {
      hide NextAnswer, SessionHolds, WriteAhead, ValidReceipt, Repeats, Runnable, Complete, KnownSessionCodes,
           KnownScript, PaneCourse, CheckedCourse, CheckedStored, Rest, ForeignStart, Durable, T.StartAnswers;
      T.StartIsSpelledOut(command.body, PromptRequested(command), At(), script, 0);
      err := MakePane();
      NotConfirmedYet(trace, command, if PromptRequested(command) then 2 else 1);
      if err == [] {
        err := LaunchAgent();
        if PromptRequested(command) { NotConfirmedYet(trace, command, 2); }
        if err == [] && PromptRequested(command) {
          err := SubmitPrompt();
        }
      }
      CompleteByLast(trace, command);
    }

    // The named pane is looked at, and then closed.
    method CloseNamed() returns (err: Errors)
      requires Starting() && command.body.StopBody?
      modifies this`script, this`result, this`existing, this`trace, this`foreign, this`fence, this`target,
               this`durable, this`refused, this`receipt
      ensures !refused
      ensures Ended(err)
      ensures CheckedCourse(command.body, ClosePane, old(At())) == if err == [] then Some(At()) else None
      ensures var stored := CheckedStored(command.body, ClosePane, old(At()));
              (Complete(durable, command) <==> stored.Some?) && (stored.Some? ==> script == stored.value)
      ensures KnownScript(old(script)) ==> KnownScript(script) && KnownSessionCodes(err)
    {
      hide NextAnswer, SessionHolds, WriteAhead, ValidReceipt, HonestRow, WireReceipt, Advance, Runnable, TargetReady,
           InitialResult, Complete, KnownSessionCodes, KnownScript, StageCourse, StageStored, Refreshed, Rest, Repeats,
           Sent, Durable;
      NotConfirmedYet(trace, command, 0);
      CompleteByLast(trace, command);
      ghost var seen;
      err, seen := StopReady();
      ObservationIsRepeated(command, name, incarnation, receipt, old(result), result);
      if err != [] {
        return;
      }
      err := Effect(ClosePane, 0);
      if err == [] { ConfirmedRun(receipt, command); }
      CompleteByLast(trace, command);
    }

    /** stopAgent: close exactly the pane the operator named. */
    method Stop() returns (err: Errors)
      requires Starting() && command.body.StopBody?
      modifies this`script, this`result, this`existing, this`trace, this`foreign, this`fence, this`target,
               this`durable, this`refused, this`receipt
      ensures !refused
      ensures Ended(err)
      ensures StopCourse(command.body, old(At())) == if err == [] then Some(At()) else None
      ensures var stored := StopStored(command.body, old(At()));
              (Complete(durable, command) <==> stored.Some?) && (stored.Some? ==> script == stored.value)
      ensures Complete(durable, command) <==> T.StopAnswers(command.body.stop, old(script), 0)
      ensures Complete(durable, command) ==>
                && |old(script)| > 15 && old(script)[15].panes.Some?
                && forall v | v in old(script)[15].panes.value ::
                     v.pane != command.body.stop.target.pane && v.terminal != command.body.stop.target.terminal
      ensures KnownScript(old(script)) ==> KnownScript(script) && KnownSessionCodes(err)
    {
      hide NextAnswer, SessionHolds, WriteAhead, ValidReceipt, HonestRow, WireReceipt, Advance, Runnable,
           InitialResult, Complete, KnownSessionCodes, KnownScript, CheckedCourse, CheckedStored, Opened, Rest, Durable,
           T.StopAnswers;
      StopBegins(command);
      T.StopIsSpelledOut(command.body, At(), script, 0);
      if T.StopAnswers(command.body.stop, script, 0) { T.StoppedPaneIsGone(command.body.stop, script, 0); }
      NotConfirmedYet(trace, command, 0);
      CompleteByLast(trace, command);
      err := Open();
      if err == [] {
        err := CloseNamed();
      }
    }
  }
}
