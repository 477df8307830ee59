/** Durable evidence of an agent start or stop: which receipts are valid, which one may follow
    another, and which terminal results they support.
 */
module Receipts {
  import opened Messages

  const MaxReceiptBytes := 4096
  const MaxEvents := 8

  /******* Encoded size *******/

  function VarintSize(n: nat): nat {
    if n < 128 then 1 else 1 + VarintSize(n / 128)
  }

  // A length-delimited field with a one-byte tag; proto3 omits empty strings but not messages.
  function StringSize(length: nat): nat {
    if length == 0 then 0 else 1 + VarintSize(length) + length
  }

  function MessageSize(length: nat): nat {
    1 + VarintSize(length) + length
  }

  function StageLength(s: Stage): nat {
    match s
    case CreatePane => 11
    case Launch => 6
    case Prompt => 6
    case ClosePane => 10
    case OtherStage(text) => |text|
  }

  function OutcomeLength(o: Outcome): nat {
    match o
    case NotAttempted => 13
    case Unknown => 7
    case Confirmed => 9
    case OtherOutcome(text) => |text|
  }

  function AgentStatusLength(s: AgentStatus): nat {
    match s
    case NoStatus => 0
    case Idle => 4
    case Working => 7
    case Blocked => 7
    case Done => 4
    case UnknownStatus => 7
    case OtherStatus(text) => |text|
  }

  function ProviderLength(p: Provider): nat {
    match p
    case NoProvider => 0
    case UnknownProvider => 7
    case Named(text) => |text|
  }

  function TargetSize(t: Target): nat {
    StringSize(|t.pane|) + StringSize(|t.terminal|) + StringSize(|t.agentSession|) +
    StringSize(|t.sessionName|) + StringSize(|t.incarnation|)
  }

  function HandleSize(h: Handle): nat {
    MessageSize(TargetSize(h.target)) + StringSize(|h.workspace|) + StringSize(|h.tab|) +
    StringSize(ProviderLength(h.provider))
  }

  function EventSize(e: StageEvent): nat {
    StringSize(StageLength(e.stage)) + (if e.before then 2 else 0) + StringSize(OutcomeLength(e.outcome))
  }

  function EventsSize(events: seq<StageEvent>): nat {
    if events == [] then 0 else MessageSize(EventSize(events[0])) + EventsSize(events[1..])
  }

  // proto.Size of a receipt
  function ReceiptSize(r: Receipt): nat {
    MessageSize(HandleSize(r.handle)) +
    StringSize(OutcomeLength(r.pane)) + StringSize(OutcomeLength(r.launch)) +
    StringSize(OutcomeLength(r.prompt)) + StringSize(OutcomeLength(r.stop)) +
    StringSize(AgentStatusLength(r.observed)) +
    (if r.sequence == 0 then 0 else 1 + VarintSize(r.sequence)) +
    EventsSize(r.stages)
  }

  /******* The language of stage histories *******/

  function StageOrder(b: Body): seq<Stage> {
    match b
    case StartBody(_) => [CreatePane, Launch, Prompt]
    case StopBody(_) => [ClosePane]
    case _ => []
  }

  // A prefix of the intent/outcome pairs of the stages in order, where a stage is only
  // entered once the one before it is confirmed.
  predicate StageHistory(order: seq<Stage>, events: seq<StageEvent>) {
    && |events| <= 2 * |order|
    && forall i | 0 <= i < |events| :: HistoryEvent(order, events, i)
  }

  predicate HistoryEvent(order: seq<Stage>, events: seq<StageEvent>, i: nat)
    requires i < |events| <= 2 * |order|
  {
    && events[i].stage == order[i / 2]
    && events[i].before == (i % 2 == 0)
    && if events[i].before
       then events[i].outcome == Unknown && (i > 0 ==> events[i - 1].outcome == Confirmed)
       else Reported(events[i].outcome)
  }

  // The outcome a history leaves a stage with.
  function LastOutcome(events: seq<StageEvent>, s: Stage): Outcome {
    if events == [] then NotAttempted
    else
      var last := events[|events| - 1];
      if last.stage == s then last.outcome else LastOutcome(events[..|events| - 1], s)
  }

  predicate Summarizes(r: Receipt) {
    && r.pane == LastOutcome(r.stages, CreatePane)
    && r.launch == LastOutcome(r.stages, Launch)
    && r.prompt == LastOutcome(r.stages, Prompt)
    && r.stop == LastOutcome(r.stages, ClosePane)
  }

  predicate EmptyOrToken(s: string) {
    s == "" || Token(s)
  }

  // The handle names a pinned native incarnation with bounded identifiers.
  predicate PinnedHandle(h: Handle) {
    && Incarnation(h.target.incarnation)
    && SessionSelector(h.target.sessionName, h.target.incarnation, true)
    && EmptyOrToken(h.workspace) && EmptyOrToken(h.tab) && EmptyOrToken(h.target.pane)
    && EmptyOrToken(h.target.terminal) && EmptyOrToken(h.target.agentSession)
  }

  // The handle belongs to the command.
  predicate HandleOf(h: Handle, b: Body) {
    match b
    case StartBody(w) =>
      && h.workspace == w.workspace
      && MatchesSession(h.target.sessionName, h.target.incarnation, w.sessionName, w.incarnation)
      && (h.provider == NoProvider || h.provider == UnknownProvider || h.provider == w.provider)
    case StopBody(w) =>
      h.workspace == w.workspace && h.tab == w.tab && h.provider == w.provider && h.target == w.target
    case _ => false
  }

  // Confirmed outcomes carry the identities they confirm.
  predicate Evidence(r: Receipt, c: Command) {
    match c.body
    case StartBody(w) =>
      && (r.pane == Confirmed ==> r.handle.tab != "" && r.handle.target.pane != "" && r.handle.target.terminal != "")
      && (r.launch == Confirmed ==> r.handle.provider == w.provider)
      && (r.prompt != NotAttempted ==> PromptRequested(c))
    case _ => true
  }

  /** What a valid receipt is: bounded, about this command, and telling a stage history
      that its summary repeats. */
  predicate ValidReceipt(r: Receipt, c: Command) {
    && IsLifecycle(c.body)
    && ReceiptSize(r) <= MaxReceiptBytes
    && r.sequence == |r.stages|
    && (r.observed == NoStatus || ValidAgentStatus(r.observed))
    && PinnedHandle(r.handle)
    && HandleOf(r.handle, c.body)
    && StageHistory(StageOrder(c.body), r.stages)
    && Summarizes(r)
    && Evidence(r, c)
  }

  /******* Facts about histories *******/

  lemma HistoryBound(order: seq<Stage>, events: seq<StageEvent>, k: nat)
    requires StageHistory(order, events) && k <= |events|
    ensures StageHistory(order, events[..k])
  {
    forall i | 0 <= i < k ensures HistoryEvent(order, events[..k], i) {
      assert HistoryEvent(order, events, i);
    }
  }

  predicate Distinct(order: seq<Stage>) {
    forall i, j | 0 <= i < j < |order| :: order[i] != order[j]
  }

  // Each stage occupies its own pair of positions, so its last outcome is read off there.
  lemma {:induction false} OutcomeAt(order: seq<Stage>, events: seq<StageEvent>, p: nat)
    requires Distinct(order) && StageHistory(order, events) && p < |order|
    ensures LastOutcome(events, order[p]) ==
            if |events| <= 2 * p then NotAttempted
            else if |events| == 2 * p + 1 then Unknown
            else events[2 * p + 1].outcome
  {
    if events != [] {
      var k := |events| - 1;
      assert HistoryEvent(order, events, k);
      HistoryBound(order, events, k);
      if k / 2 != p {
        assert order[k / 2] != order[p];
        OutcomeAt(order, events[..k], p);
      }
    }
  }

  // A stage outside the order is never attempted.
  lemma {:induction false} OutcomeOutside(order: seq<Stage>, events: seq<StageEvent>, s: Stage)
    requires StageHistory(order, events) && s !in order
    ensures LastOutcome(events, s) == NotAttempted
  {
    if events != [] {
      var k := |events| - 1;
      assert HistoryEvent(order, events, k);
      HistoryBound(order, events, k);
      OutcomeOutside(order, events[..k], s);
    }
  }

  // Entering the stage at position p means every earlier stage was confirmed.
  lemma {:induction false} EarlierConfirmed(order: seq<Stage>, events: seq<StageEvent>, p: nat, q: nat)
    requires StageHistory(order, events) && q < p && 2 * p < |events|
    ensures events[2 * q + 1].outcome == Confirmed
    decreases p
  {
    assert HistoryEvent(order, events, 2 * p);
    if q < p - 1 {
      EarlierConfirmed(order, events, p - 1, q);
    }
  }

  // All four summary outcomes of a start, read off the history.
  lemma StartOutcomes(events: seq<StageEvent>, b: Body)
    requires b.StartBody? && StageHistory(StageOrder(b), events)
    ensures |events| <= 6
    ensures LastOutcome(events, ClosePane) == NotAttempted
    ensures LastOutcome(events, CreatePane) ==
            if |events| == 0 then NotAttempted else if |events| == 1 then Unknown else events[1].outcome
    ensures LastOutcome(events, Launch) ==
            if |events| <= 2 then NotAttempted else if |events| == 3 then Unknown else events[3].outcome
    ensures LastOutcome(events, Prompt) ==
            if |events| <= 4 then NotAttempted else if |events| == 5 then Unknown else events[5].outcome
    ensures |events| > 2 ==> events[1].outcome == Confirmed
    ensures |events| > 4 ==> events[3].outcome == Confirmed
  {
    var order := StageOrder(b);
    assert order[0] == CreatePane && order[1] == Launch && order[2] == Prompt;
    OutcomeAt(order, events, 0);
    OutcomeAt(order, events, 1);
    OutcomeAt(order, events, 2);
    OutcomeOutside(order, events, ClosePane);
    if |events| > 2 { EarlierConfirmed(order, events, 1, 0); }
    if |events| > 4 { EarlierConfirmed(order, events, 2, 1); }
  }

  lemma StopOutcomes(events: seq<StageEvent>, b: Body)
    requires b.StopBody? && StageHistory(StageOrder(b), events)
    ensures |events| <= 2
    ensures LastOutcome(events, CreatePane) == NotAttempted
    ensures LastOutcome(events, Launch) == NotAttempted
    ensures LastOutcome(events, Prompt) == NotAttempted
    ensures LastOutcome(events, ClosePane) ==
            if |events| == 0 then NotAttempted else if |events| == 1 then Unknown else events[1].outcome
  {
    var order := StageOrder(b);
    assert order[0] == ClosePane;
    OutcomeAt(order, events, 0);
    OutcomeOutside(order, events, CreatePane);
    OutcomeOutside(order, events, Launch);
    OutcomeOutside(order, events, Prompt);
  }

  lemma OutcomesReported(events: seq<StageEvent>, b: Body)
    requires StageHistory(StageOrder(b), events)
    ensures forall s: Stage :: Reported(LastOutcome(events, s))
  {
    forall s: Stage ensures Reported(LastOutcome(events, s)) {
      if s in StageOrder(b) {
        var p :| 0 <= p < |StageOrder(b)| && StageOrder(b)[p] == s;
        OutcomeAt(StageOrder(b), events, p);
        if |events| > 2 * p + 1 {
          assert HistoryEvent(StageOrder(b), events, 2 * p + 1);
        }
      } else {
        OutcomeOutside(StageOrder(b), events, s);
      }
    }
  }

  /** A start has at most six events and a stop at most two, so the limit of eight never binds,
      and the stages determine all four outcomes. */
  lemma StagesDetermineReceipt(r: Receipt, r': Receipt, c: Command)
    requires ValidReceipt(r, c) && ValidReceipt(r', c) && r.stages == r'.stages
    ensures |r.stages| <= (if c.body.StartBody? then 6 else 2) < MaxEvents
    ensures forall s :: StageOutcome(r, s) == StageOutcome(r', s)
  {
    if c.body.StartBody? { StartOutcomes(r.stages, c.body); } else { StopOutcomes(r.stages, c.body); }
  }

  /** The stage dependencies that a valid receipt carries: a later stage was only ever entered
      after the earlier one was confirmed. */
  lemma StageDependencies(r: Receipt, c: Command)
    requires ValidReceipt(r, c)
    ensures forall s: Stage :: !s.OtherStage? ==> Reported(StageOutcome(r, s))
    ensures r.launch != NotAttempted ==> r.pane == Confirmed
    ensures r.prompt != NotAttempted ==> r.launch == Confirmed
    ensures c.body.StartBody? ==> r.stop == NotAttempted
    ensures c.body.StopBody? ==> r.pane == NotAttempted && r.launch == NotAttempted && r.prompt == NotAttempted
  {
    OutcomesReported(r.stages, c.body);
    assert StageOutcome(r, CreatePane) == LastOutcome(r.stages, CreatePane);
    if c.body.StartBody? { StartOutcomes(r.stages, c.body); } else { StopOutcomes(r.stages, c.body); }
  }

  /******* The receipt validator *******/

  // The checks the validator makes on event i, given the outcomes of the events before it.
  predicate EventAccepted(order: seq<Stage>, events: seq<StageEvent>, i: nat, last: map<Stage, Outcome>)
    requires i < |events|
    requires forall s: Stage | !s.OtherStage? :: s in last
  {
    var e := events[i];
    && !e.stage.OtherStage?
    && e.stage in order
    && if e.before then
         && e.outcome == Unknown
         && last[e.stage] == NotAttempted
         && (i > 0 ==> !events[i - 1].before)
         && (e.stage == Launch ==> last[CreatePane] == Confirmed)
         && (e.stage == Prompt ==> last[Launch] == Confirmed)
         && (forall j | 0 <= j < i :: events[j].stage != e.stage)
       else
         i > 0 && events[i - 1].before && events[i - 1].stage == e.stage && Reported(e.outcome)
  }

  // One more event keeps the history well formed exactly when the validator's checks accept it.
  lemma NextEvent(b: Body, events: seq<StageEvent>, i: nat, last: map<Stage, Outcome>)
    requires IsLifecycle(b) && i < |events|
    requires StageHistory(StageOrder(b), events[..i])
    requires forall s: Stage | !s.OtherStage? :: s in last && last[s] == LastOutcome(events[..i], s)
    ensures EventAccepted(StageOrder(b), events, i, last) <==> StageHistory(StageOrder(b), events[..i + 1])
  {
    var order, prefix, next := StageOrder(b), events[..i], events[..i + 1];
    assert next[..i] == prefix;
    assert forall j | 0 <= j < i :: prefix[j] == events[j];
    if b.StartBody? { StartOutcomes(prefix, b); } else { StopOutcomes(prefix, b); }
    if |next| <= 2 * |order| {
      forall j | 0 <= j < i ensures HistoryEvent(order, next, j) {
        assert HistoryEvent(order, prefix, j);
      }
    } else {
      assert HistoryEvent(order, prefix, i - 1);
      assert HistoryEvent(order, prefix, i - 2);
      if b.StartBody? {
        assert HistoryEvent(order, prefix, 0) && HistoryEvent(order, prefix, 2) && HistoryEvent(order, prefix, 4);
      }
    }
    if StageHistory(order, next) {
      assert HistoryEvent(order, next, i);
      if i > 0 { assert HistoryEvent(order, next, i - 1); }
      forall j | 0 <= j < i && events[i].before ensures events[j].stage != events[i].stage {
        assert HistoryEvent(order, next, j);
      }
    } else if EventAccepted(order, events, i, last) && i < 2 * |order| {
      AcceptedEventFits(b, events, i, last);
    }
  }

  // An accepted event continues the history at its next position.
  lemma AcceptedEventFits(b: Body, events: seq<StageEvent>, i: nat, last: map<Stage, Outcome>)
    requires IsLifecycle(b) && i < |events| && i < 2 * |StageOrder(b)|
    requires StageHistory(StageOrder(b), events[..i])
    requires forall s: Stage | !s.OtherStage? :: s in last && last[s] == LastOutcome(events[..i], s)
    requires EventAccepted(StageOrder(b), events, i, last)
    ensures HistoryEvent(StageOrder(b), events[..i + 1], i)
  {
    var order, prefix := StageOrder(b), events[..i];
    assert forall j | 0 <= j < i :: prefix[j] == events[j];
    if b.StartBody? { StartOutcomes(prefix, b); } else { StopOutcomes(prefix, b); }
    if i > 0 { assert HistoryEvent(order, prefix, i - 1); }
    if i > 1 { assert HistoryEvent(order, prefix, 0); }
    if i > 3 { assert HistoryEvent(order, prefix, 2); }
  }

  // The validator's checks on everything but the stages.
  predicate HeaderAccepted(r: Receipt, c: Command) {
    && IsLifecycle(c.body)
    && ReceiptSize(r) <= MaxReceiptBytes
    && |r.stages| <= MaxEvents
    && r.sequence == |r.stages|
    && Reported(r.pane) && Reported(r.launch) && Reported(r.prompt) && Reported(r.stop)
    && (r.observed == NoStatus || ValidAgentStatus(r.observed))
    && PinnedHandle(r.handle)
    && HandleOf(r.handle, c.body)
    && if c.body.StartBody? then
         && r.stop == NotAttempted
         && !(&& r.pane == Confirmed
              && (r.handle.tab == "" || r.handle.target.pane == "" || r.handle.target.terminal == ""))
         && !(r.launch == Confirmed && (r.pane != Confirmed || r.handle.provider != c.body.start.provider))
         && !(r.prompt != NotAttempted && (r.launch != Confirmed || !PromptRequested(c)))
       else
         r.pane == NotAttempted && r.launch == NotAttempted && r.prompt == NotAttempted
  }

  // Several header checks are redundant: the stages and their summary imply them.
  lemma HeaderIsImplied(r: Receipt, c: Command)
    ensures ValidReceipt(r, c) <==>
            HeaderAccepted(r, c) && StageHistory(StageOrder(c.body), r.stages) && Summarizes(r)
  {
    if ValidReceipt(r, c) {
      StageDependencies(r, c);
      StagesDetermineReceipt(r, r, c);
      assert forall s: Stage | !s.OtherStage? :: Reported(StageOutcome(r, s));
      assert Reported(StageOutcome(r, CreatePane)) && Reported(StageOutcome(r, Launch));
      assert Reported(StageOutcome(r, Prompt)) && Reported(StageOutcome(r, ClosePane));
    }
  }

  // protocol.ValidateLifecycleReceipt
  method ValidateReceipt(r: Receipt, c: Command) returns (ok: bool)
    ensures ok <==> ValidReceipt(r, c)
  {
    HeaderIsImplied(r, c);
    if !HeaderAccepted(r, c) {
      return false;
    }
    var last;
    ok, last := ReplayStages(r.stages, c.body);
    if !ok {
      return;
    }
    for k := 0 to |NativeStages|
      invariant forall j | 0 <= j < k :: StageOutcome(r, NativeStages[j]) == last[NativeStages[j]]
    {
      if StageOutcome(r, NativeStages[k]) != last[NativeStages[k]] {
        SummaryDisagrees(r, last, k);
        return false;
      }
    }
    assert NativeStages[0] == CreatePane && NativeStages[1] == Launch;
    assert NativeStages[2] == Prompt && NativeStages[3] == ClosePane;
  }

  lemma SummaryDisagrees(r: Receipt, last: map<Stage, Outcome>, k: nat)
    requires k < |NativeStages| && NativeStages[k] in last
    requires last[NativeStages[k]] == LastOutcome(r.stages, NativeStages[k]) != StageOutcome(r, NativeStages[k])
    ensures !Summarizes(r)
  {
  }

  // The validator's loop over the stages, keeping the last outcome of each.
  method ReplayStages(stages: seq<StageEvent>, b: Body) returns (ok: bool, last: map<Stage, Outcome>)
    requires IsLifecycle(b)
    ensures ok <==> StageHistory(StageOrder(b), stages)
    ensures ok ==> forall s: Stage | !s.OtherStage? :: s in last && last[s] == LastOutcome(stages, s)
  {
    last := map[CreatePane := NotAttempted, Launch := NotAttempted, Prompt := NotAttempted, ClosePane := NotAttempted];
    for i := 0 to |stages|
      invariant StageHistory(StageOrder(b), stages[..i])
      invariant forall s: Stage | !s.OtherStage? :: s in last && last[s] == LastOutcome(stages[..i], s)
    {
      NextEvent(b, stages, i, last);
      ok := AcceptEvent(StageOrder(b), stages, i, last);
      if !ok {
        if StageHistory(StageOrder(b), stages) { HistoryBound(StageOrder(b), stages, i + 1); }
        return;
      }
      assert stages[..i + 1][..i] == stages[..i];
      last := last[stages[i].stage := stages[i].outcome];
    }
    assert stages[..|stages|] == stages;
    ok := true;
  }

  // The body of the validator's loop, with its inner scan for a repeated effect.
  method AcceptEvent(order: seq<Stage>, events: seq<StageEvent>, i: nat, last: map<Stage, Outcome>) returns (ok: bool)
    requires i < |events|
    requires forall s: Stage | !s.OtherStage? :: s in last
    ensures ok <==> EventAccepted(order, events, i, last)
  {
    var e := events[i];
    if e.stage.OtherStage? || e.stage !in order {
      return false;
    }
    if e.before {
      if e.outcome != Unknown || last[e.stage] != NotAttempted || (i > 0 && events[i - 1].before)
        || (e.stage == Launch && last[CreatePane] != Confirmed) || (e.stage == Prompt && last[Launch] != Confirmed)
      {
        return false;
      }
      for j := 0 to i
        invariant forall k | 0 <= k < j :: events[k].stage != e.stage
      {
        if events[j].stage == e.stage {
          return false;
        }
      }
      return true;
    }
    return i > 0 && events[i - 1].before && events[i - 1].stage == e.stage && Reported(e.outcome);
  }

  /******* The byte limit *******/

  predicate BoundedProvider(b: Body) {
    match b
    case StartBody(w) => SupportedProvider(w.provider)
    case StopBody(w) => SupportedProvider(w.provider)
    case _ => true
  }

  lemma SupportedProviderIsShort(p: Provider)
    requires SupportedProvider(p)
    ensures ProviderLength(p) <= 10
  {
  }

  lemma TokenSize(s: string, limit: nat)
    requires |s| <= limit <= 128
    ensures StringSize(|s|) <= limit + 3
  {
  }

  lemma {:induction false} EventsAreSmall(events: seq<StageEvent>)
    requires forall i | 0 <= i < |events| :: !events[i].stage.OtherStage? && Reported(events[i].outcome)
    ensures EventsSize(events) <= 32 * |events|
  {
    if events != [] {
      assert !events[0].stage.OtherStage?;
      EventsAreSmall(events[1..]);
    }
  }

  lemma HandleIsSmall(h: Handle)
    requires PinnedHandle(h) && ProviderLength(h.provider) <= 10
    ensures HandleSize(h) <= 900
  {
    var t := h.target;
    TokenSize(t.pane, 128);
    TokenSize(t.terminal, 128);
    TokenSize(t.agentSession, 128);
    TokenSize(t.sessionName, 64);
    TokenSize(t.incarnation, 64);
    assert TargetSize(t) <= 600;
    assert VarintSize(TargetSize(t)) <= 2;
    TokenSize(h.workspace, 128);
    TokenSize(h.tab, 128);
    assert StringSize(ProviderLength(h.provider)) <= 12;
  }

  // A well-formed history names known stages and outcomes only.
  lemma StagesAreReported(events: seq<StageEvent>, b: Body)
    requires StageHistory(StageOrder(b), events)
    ensures forall i | 0 <= i < |events| :: !events[i].stage.OtherStage? && Reported(events[i].outcome)
  {
    forall i | 0 <= i < |events| ensures !events[i].stage.OtherStage? && Reported(events[i].outcome) {
      assert HistoryEvent(StageOrder(b), events, i);
      assert !StageOrder(b)[i / 2].OtherStage?;
    }
  }

  /** The 4096-byte limit never binds: a receipt for a supported provider that satisfies every
      other condition is smaller than 1300 bytes. */
  lemma SizeNeverBinds(r: Receipt, c: Command)
    requires IsLifecycle(c.body) && BoundedProvider(c.body)
    requires r.sequence == |r.stages|
    requires r.observed == NoStatus || ValidAgentStatus(r.observed)
    requires PinnedHandle(r.handle) && HandleOf(r.handle, c.body)
    requires StageHistory(StageOrder(c.body), r.stages) && Summarizes(r)
    ensures ReceiptSize(r) <= 1300
  {
    hide SupportedProvider, StageHistory, LastOutcome, Token;
    if c.body.StartBody? {
      SupportedProviderIsShort(c.body.start.provider);
      StartOutcomes(r.stages, c.body);
    } else {
      SupportedProviderIsShort(c.body.stop.provider);
      StopOutcomes(r.stages, c.body);
    }
    HandleIsSmall(r.handle);
    OutcomesReported(r.stages, c.body);
    StagesAreReported(r.stages, c.body);
    EventsAreSmall(r.stages);
    assert forall s: Stage :: OutcomeLength(LastOutcome(r.stages, s)) <= 13;
    assert VarintSize(HandleSize(r.handle)) <= 2;
  }
}
