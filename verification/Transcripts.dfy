/** What the environment must have answered, answer by answer, for a start or a stop to succeed: the
    courses of the adapter spelled out on the observed fields.
 */
module Transcripts {
  import opened Messages
  import opened Courses

  function Nth(script: seq<Answer>, i: nat): Answer {
    if i < |script| then script[i] else Silence
  }

  function From(script: seq<Answer>, n: nat): seq<Answer> {
    if n <= |script| then script[n..] else []
  }

  lemma NextOne(script: seq<Answer>, n: nat)
    ensures NextAnswer(From(script, n)) == Nth(script, n) && Rest(From(script, n)) == From(script, n + 1)
  {
  }

  lemma NextThree(script: seq<Answer>, n: nat)
    ensures NextAnswer(From(script, n)) == Nth(script, n) && Rest(From(script, n)) == From(script, n + 1)
    ensures NextAnswer(From(script, n + 1)) == Nth(script, n + 1) && Rest(From(script, n + 1)) == From(script, n + 2)
    ensures NextAnswer(From(script, n + 2)) == Nth(script, n + 2) && Rest(From(script, n + 2)) == From(script, n + 3)
  {
    NextOne(script, n);
    NextOne(script, n + 1);
    NextOne(script, n + 2);
  }

  // The session manager confirms the pinned session.
  predicate Holds(a: Answer) {
    a.expiry == Live && a.session == []
  }

  predicate WorkspaceIsThere(a: Answer) {
    !a.fails && a.accepted
  }

  /******* A stop *******/

  // The pane that the operator named, in every field.
  predicate IsNamed(stop: AgentStop, v: View) {
    && v.workspace == stop.workspace && v.tab == stop.tab && v.pane == stop.target.pane
    && v.terminal == stop.target.terminal && v.provider == stop.provider
    && (stop.target.agentSession == "" || v.agentSession == stop.target.agentSession)
  }

  // Whatever has the named pane's identifier is that pane, it is there, and its workspace has another.
  predicate ShowsNamed(stop: AgentStop, a: Answer) {
    && !a.fails && a.panes.Some?
    && (exists i | 0 <= i < |a.panes.value| :: a.panes.value[i].pane == stop.target.pane)
    && (forall i | 0 <= i < |a.panes.value| && a.panes.value[i].pane == stop.target.pane ::
          IsNamed(stop, a.panes.value[i]))
    && (exists i, j | 0 <= i < j < |a.panes.value| ::
          a.panes.value[i].workspace == stop.workspace && a.panes.value[j].workspace == stop.workspace)
  }

  predicate ShowsNamedAgent(stop: AgentStop, a: Answer) {
    !a.fails && a.expiry == Live && a.view.Some? && IsNamed(stop, a.view.value)
  }

  // Neither the pane nor its terminal is listed.
  predicate ShowsGone(stop: AgentStop, a: Answer) {
    && !a.fails && a.panes.Some?
    && forall i | 0 <= i < |a.panes.value| ::
         a.panes.value[i].pane != stop.target.pane && a.panes.value[i].terminal != stop.target.terminal
  }

  // The answers of a stop, the first one being the n-th: the request and the observer, the pane; the
  // intent; session, pane again, session; pane.close, its proof; session; and the outcome is taken.
  predicate StopAnswers(stop: AgentStop, script: seq<Answer>, n: nat) {
    && Nth(script, n).accepted && WorkspaceIsThere(Nth(script, n + 1))
    && WorkspaceIsThere(Nth(script, n + 2)) && ShowsNamed(stop, Nth(script, n + 3))
    && ShowsNamedAgent(stop, Nth(script, n + 4))
    && Nth(script, n + 5).expiry == Live && Nth(script, n + 6).storage.Stored? && Nth(script, n + 7).published
    && Nth(script, n + 8).expiry == Live && Holds(Nth(script, n + 9))
    && WorkspaceIsThere(Nth(script, n + 10)) && ShowsNamed(stop, Nth(script, n + 11))
    && ShowsNamedAgent(stop, Nth(script, n + 12)) && Holds(Nth(script, n + 13))
    && !Nth(script, n + 14).fails && ShowsGone(stop, Nth(script, n + 15)) && WorkspaceIsThere(Nth(script, n + 16))
    && Holds(Nth(script, n + 17)) && !Nth(script, n + 18).storage.NotStored?
  }

  // The list after pane.close shows neither the pane nor its terminal.
  lemma StoppedPaneIsGone(stop: AgentStop, script: seq<Answer>, n: nat)
    requires StopAnswers(stop, script, n)
    ensures |script| > n + 15 && script[n + 15].panes.Some?
    ensures forall v | v in script[n + 15].panes.value ::
              v.pane != stop.target.pane && v.terminal != stop.target.terminal
  {
    hide ShowsNamed, ShowsNamedAgent;
    assert ShowsGone(stop, Nth(script, n + 15));
  }

  // The look at the named pane.
  lemma NamedIsRefreshed(b: Body, at: Situation, script: seq<Answer>, n: nat)
    requires b.StopBody? && at.h == StopHandle(b.stop) && at.rest == From(script, n)
    ensures Refreshed(ClosePane, at) ==
            if WorkspaceIsThere(Nth(script, n)) && ShowsNamed(b.stop, Nth(script, n + 1))
              && ShowsNamedAgent(b.stop, Nth(script, n + 2))
            then Some(at.(rest := From(script, n + 3))) else None
  {
    NextThree(script, n);
    hide From, Nth, NextAnswer, Rest;
    var a := Nth(script, n + 1);
    if a.panes.Some? {
      assert PaneIsClosable(at.h, a.panes.value) <==>
             && (exists i | 0 <= i < |a.panes.value| :: a.panes.value[i].pane == b.stop.target.pane)
             && (forall i | 0 <= i < |a.panes.value| && a.panes.value[i].pane == b.stop.target.pane ::
                   IsNamed(b.stop, a.panes.value[i]))
             && TwoInWorkspace(at.h, a.panes.value);
    }
  }

  // pane.close and the proof that the pane is gone.
  lemma ClosingIsProved(b: Body, at: Situation, script: seq<Answer>, n: nat)
    requires b.StopBody? && at.h == StopHandle(b.stop) && at.rest == From(script, n)
    ensures Mutated(b, ClosePane, at) ==
            if !Nth(script, n).fails && ShowsGone(b.stop, Nth(script, n + 1)) && WorkspaceIsThere(Nth(script, n + 2))
            then Some(at.(rest := From(script, n + 3))) else None
  {
    NextThree(script, n);
  }

  // What a stage's attempt takes, once its check and its mutation are known.
  lemma Attempt(b: Body, s: Stage, at: Situation, script: seq<Answer>, n: nat, ready: Option<Situation>, m: nat,
                done: Option<Situation>, k: nat)
    requires at.rest == From(script, n) && Refreshed(s, at.(rest := From(script, n + 2))) == ready
    requires ready.Some? ==>
               ready.value.rest == From(script, m) && Mutated(b, s, ready.value.(rest := From(script, m + 1))) == done
    requires ready.Some? && done.Some? ==> done.value.rest == From(script, k)
    ensures Tried(b, s, at) ==
            if Nth(script, n).expiry == Live && Holds(Nth(script, n + 1)) && ready.Some? && Holds(Nth(script, m))
              && done.Some? && Holds(Nth(script, k))
            then Some(done.value.(rest := From(script, k + 1))) else None
  {
    NextThree(script, n);
    NextOne(script, m);
    NextOne(script, k);
    hide From, Nth, NextAnswer, Rest, Refreshed, Mutated;
  }

  /** A stop is on record as complete exactly if every answer is the one that is asked for, on the
      fields that the operator named. */
  lemma StopIsSpelledOut(b: Body, at: Situation, script: seq<Answer>, n: nat)
    requires b.StopBody? && at.h == StopHandle(b.stop) && at.rest == From(script, n)
    ensures StopStored(b, at) ==
            if StopAnswers(b.stop, script, n) then Some(HookLeaves(From(script, n + 18))) else None
  {
    hide From, Nth, NextAnswer, Rest, Refreshed, Mutated, Tried, ShowsNamed, ShowsNamedAgent, ShowsGone, HookLeaves;
    NextThree(script, n);
    var open := at.(rest := From(script, n + 2));
    NamedIsRefreshed(b, open, script, n + 2);
    NextThree(script, n + 5);
    var ready := open.(rest := From(script, n + 8));
    NamedIsRefreshed(b, ready.(rest := From(script, n + 10)), script, n + 10);
    ClosingIsProved(b, ready.(rest := From(script, n + 14)), script, n + 14);
    Attempt(b, ClosePane, ready, script, n + 8, Refreshed(ClosePane, ready.(rest := From(script, n + 10))), n + 13,
            Mutated(b, ClosePane, ready.(rest := From(script, n + 14))), n + 17);
    NextOne(script, n + 18);
  }

  /******* A start *******/

  // The same pane, and the same conversation once one was seen.
  predicate SamePane(u: View, v: View) {
    && v.workspace == u.workspace && v.tab == u.tab && v.pane == u.pane && v.terminal == u.terminal
    && (u.agentSession == "" || v.agentSession == u.agentSession)
  }

  // A tab as asked for, around a pane of the workspace that was not there before, with no agent in it.
  predicate ShowsTab(start: AgentStart, before: Answer, a: Answer) {
    && before.panes.Some? && !a.fails && a.created.Some? && a.created.value.tabMatches && !a.created.value.focused
    && var p := a.created.value.pane;
       && p.workspace == start.workspace && p.provider == UnknownProvider
       && forall i | 0 <= i < |before.panes.value| ::
            var q := before.panes.value[i];
            q.pane != p.pane && q.terminal != p.terminal && q.tab != p.tab
  }

  // An idle shell in the pane.
  predicate ShowsShell(p: View, a: Answer) {
    && !a.fails && a.view.Some? && SamePane(p, a.view.value) && a.view.value.provider == UnknownProvider
    && !a.view.value.launchPending && a.view.value.status != Working && a.view.value.status != Blocked
  }

  // The reply to agent.start: the provider is there, or about to be.
  predicate ShowsLaunch(start: AgentStart, p: View, a: Answer) {
    && !a.fails && a.accepted && a.view.Some? && SamePane(p, a.view.value)
    && (a.view.value.provider == start.provider
        || (a.view.value.provider == UnknownProvider && a.view.value.launchPending))
  }

  // One observation of the launch, after another.
  predicate ShowsAgent(start: AgentStart, u: View, a: Answer) {
    && !a.fails && a.expiry == Live && a.view.Some? && SamePane(u, a.view.value) && a.view.value.status != Blocked
    && (a.view.value.provider == start.provider || a.view.value.provider == UnknownProvider)
  }

  // The requested provider takes input.
  predicate IsUp(start: AgentStart, v: View) {
    v.provider == start.provider && v.interactiveReady && !v.launchPending
  }

  // The k-th poll from here, and no earlier one, shows the requested provider taking input; u was
  // seen before.
  predicate ComesUp(start: AgentStart, u: View, script: seq<Answer>, n: nat, k: nat)
    decreases k
  {
    && ShowsAgent(start, u, Nth(script, n))
    && var v := Nth(script, n).view.value;
       if k == 0 then IsUp(start, v)
       else !IsUp(start, v) && Nth(script, n + 1).expiry == Live && ComesUp(start, v, script, n + 2, k - 1)
  }

  // The launched agent is idle and takes input.
  predicate ShowsReady(v: View, a: Answer) {
    && !a.fails && a.view.Some? && SamePane(v, a.view.value) && a.view.value.provider == v.provider
    && (a.view.value.status == Idle || a.view.value.status == Done)
    && a.view.value.interactiveReady && !a.view.value.launchPending
  }

  // The reply to agent.prompt is about this agent.
  predicate ShowsPrompted(v: View, a: Answer) {
    !a.fails && a.view.Some? && SamePane(v, a.view.value) && a.view.value.provider == v.provider
  }

  // The hook takes a receipt and publishes it.
  predicate Taken(script: seq<Answer>, n: nat) {
    Nth(script, n).storage.Stored? && Nth(script, n + 1).published
  }

  // The pane: request, observer, workspace, panes; the intent; session, directory, workspace, panes,
  // session; tab.create; session; and the outcome.
  predicate PaneAnswers(start: AgentStart, script: seq<Answer>, n: nat) {
    && Nth(script, n).accepted && WorkspaceIsThere(Nth(script, n + 1))
    && WorkspaceIsThere(Nth(script, n + 2)) && !Nth(script, n + 3).fails && Nth(script, n + 3).panes.Some?
    && Nth(script, n + 4).expiry == Live && Taken(script, n + 5)
    && Nth(script, n + 7).expiry == Live && Holds(Nth(script, n + 8))
    && Nth(script, n + 9).accepted && WorkspaceIsThere(Nth(script, n + 10)) && !Nth(script, n + 11).fails
    && Nth(script, n + 11).panes.Some? && ShowsTab(start, Nth(script, n + 11), Nth(script, n + 13))
    && Holds(Nth(script, n + 12))
    && Holds(Nth(script, n + 14)) && Taken(script, n + 15)
  }

  // The launch in pane p, up to its outcome: the shell; the intent; session, shell, session;
  // agent.start and k more polls; session.
  predicate LaunchAnswers(start: AgentStart, p: View, script: seq<Answer>, n: nat, k: nat) {
    && ShowsShell(p, Nth(script, n)) && Nth(script, n + 1).expiry == Live && Taken(script, n + 2)
    && Nth(script, n + 4).expiry == Live && Holds(Nth(script, n + 5)) && ShowsShell(p, Nth(script, n + 6))
    && Holds(Nth(script, n + 7)) && ShowsLaunch(start, p, Nth(script, n + 8))
    && ComesUp(start, Nth(script, n + 8).view.value, script, n + 9, k) && Holds(Nth(script, n + 10 + 2 * k))
  }

  // The prompt to agent v, up to its outcome.
  predicate PromptAnswers(v: View, script: seq<Answer>, n: nat) {
    && ShowsReady(v, Nth(script, n)) && Nth(script, n).expiry == Live
    && Nth(script, n + 1).expiry == Live && Taken(script, n + 2)
    && Nth(script, n + 4).expiry == Live && Holds(Nth(script, n + 5))
    && ShowsReady(v, Nth(script, n + 6)) && Nth(script, n + 6).expiry == Live && Holds(Nth(script, n + 7))
    && ShowsPrompted(v, Nth(script, n + 8)) && Holds(Nth(script, n + 9))
  }

  // A whole start, with k more polls after the first: the outcome of its last stage is taken.
  predicate StartAnswers(start: AgentStart, prompted: bool, script: seq<Answer>, n: nat, k: nat) {
    && PaneAnswers(start, script, n)
    && LaunchAnswers(start, Nth(script, n + 13).created.value.pane, script, n + 17, k)
    && if prompted then
         && Taken(script, n + 28 + 2 * k)
         && PromptAnswers(Launchee(script, n, k), script, n + 30 + 2 * k)
         && !Nth(script, n + 40 + 2 * k).storage.NotStored?
       else !Nth(script, n + 28 + 2 * k).storage.NotStored?
  }

  // What the last poll shows.
  function Launchee(script: seq<Answer>, n: nat, k: nat): View {
    SeenAt(script, n + 26 + 2 * k)
  }

  function SeenAt(script: seq<Answer>, n: nat): View {
    if Nth(script, n).view.Some? then Nth(script, n).view.value else SomeView
  }

  /******* What a start's answers amount to *******/

  lemma PaneIsRefreshed(at: Situation, script: seq<Answer>, n: nat)
    requires at.rest == From(script, n)
    ensures Refreshed(CreatePane, at) ==
            if Nth(script, n).accepted && WorkspaceIsThere(Nth(script, n + 1)) && !Nth(script, n + 2).fails
              && Nth(script, n + 2).panes.Some?
            then Some(at.(existing := Nth(script, n + 2).panes.value, rest := From(script, n + 3))) else None
  {
    NextThree(script, n);
  }

  lemma TabIsMade(b: Body, at: Situation, script: seq<Answer>, n: nat, before: Answer)
    requires b.StartBody? && at.rest == From(script, n) && before.panes.Some? && at.existing == before.panes.value
    ensures Mutated(b, CreatePane, at) ==
            if ShowsTab(b.start, before, Nth(script, n))
            then Some(at.(h := HandleOfView(Nth(script, n).created.value.pane), rest := From(script, n + 1)))
            else None
  {
    NextOne(script, n);
    var a := Nth(script, n);
    if a.created.Some? {
      var p := a.created.value.pane;
      assert NewAmong(at.existing, HandleOfView(p)) <==>
             forall i | 0 <= i < |at.existing| ::
               at.existing[i].pane != p.pane && at.existing[i].terminal != p.terminal && at.existing[i].tab != p.tab;
    }
  }

  lemma PaneIsSpelledOut(b: Body, at: Situation, script: seq<Answer>, n: nat)
    requires b.StartBody? && at.rest == From(script, n)
    ensures PaneCourse(b, at).Some? <==> PaneAnswers(b.start, script, n)
    ensures PaneCourse(b, at).Some? ==>
              PaneCourse(b, at).value == Situation(HandleOfView(Nth(script, n + 13).created.value.pane),
                                                   Nth(script, n + 11).panes.value, From(script, n + 17))
  {
    hide From, Nth, NextAnswer, Rest, Refreshed, Mutated, Tried, ShowsTab;
    NextThree(script, n);
    NextThree(script, n + 3);
    NextThree(script, n + 6);
    var ready := at.(h := at.h.(workspace := b.start.workspace), rest := From(script, n + 7));
    if Nth(script, n + 3).panes.Some? {
      var begun := ready.(existing := Nth(script, n + 3).panes.value);
      PaneIsRefreshed(begun.(rest := From(script, n + 9)), script, n + 9);
      var looked := Refreshed(CreatePane, begun.(rest := From(script, n + 9)));
      if looked.Some? {
        var made := looked.value.(rest := From(script, n + 13));
        TabIsMade(b, made, script, n + 13, Nth(script, n + 11));
        Attempt(b, CreatePane, begun, script, n + 7, looked, n + 12, Mutated(b, CreatePane, made), n + 14);
      } else {
        Attempt(b, CreatePane, begun, script, n + 7, looked, n + 12, None, n + 14);
      }
      NextThree(script, n + 15);
    }
  }

  // One poll.
  lemma OnePoll(b: Body, at: Situation, u: View, script: seq<Answer>, n: nat)
    requires b.StartBody? && at.h == HandleOfView(u) && at.rest == From(script, n)
    ensures ShowsAgent(b.start, u, Nth(script, n)) ==> Nth(script, n).view.Some?
    ensures Awaited(b, at) ==
            if !ShowsAgent(b.start, u, Nth(script, n)) then None
            else
              var next := Situation(HandleOfView(Nth(script, n).view.value), at.existing, From(script, n + 1));
              if IsUp(b.start, Nth(script, n).view.value) then Some(next)
              else if Nth(script, n + 1).expiry != Live then None
              else Awaited(b, next.(rest := From(script, n + 2)))
  {
    NextOne(script, n);
    NextOne(script, n + 1);
    hide From, Nth, NextAnswer, Rest;
  }

  // The polls, one by one.
  lemma {:induction false} ComesUpIsAwaited(b: Body, at: Situation, u: View, script: seq<Answer>, n: nat, k: nat)
    requires b.StartBody? && at.h == HandleOfView(u) && at.rest == From(script, n) && ComesUp(b.start, u, script, n, k)
    ensures Awaited(b, at) ==
            Some(Situation(HandleOfView(SeenAt(script, n + 2 * k)), at.existing, From(script, n + 2 * k + 1)))
    decreases k
  {
    hide From, Nth, NextAnswer, Rest, Awaited, ShowsAgent, IsUp;
    OnePoll(b, at, u, script, n);
    if k > 0 {
      var v := Nth(script, n).view.value;
      ComesUpIsAwaited(b, Situation(HandleOfView(v), at.existing, From(script, n + 2)), v, script, n + 2, k - 1);
      assert n + 2 + 2 * (k - 1) == n + 2 * k;
    }
  }

  lemma {:induction false} AwaitedComesUp(b: Body, at: Situation, u: View, script: seq<Answer>, n: nat) returns (k: nat)
    requires b.StartBody? && at.h == HandleOfView(u) && at.rest == From(script, n) && Awaited(b, at).Some?
    ensures ComesUp(b.start, u, script, n, k)
    decreases |at.rest|
  {
    AgentIsAnAnswer(b.start, u, script, n);
    hide From, Nth, NextAnswer, Rest, Awaited, ShowsAgent, IsUp;
    OnePoll(b, at, u, script, n);
    var v := Nth(script, n).view.value;
    k := 0;
    if !IsUp(b.start, v) {
      var next := Situation(HandleOfView(v), at.existing, From(script, n + 2));
      k := AwaitedComesUp(b, next, v, script, n + 2);
      k := k + 1;
    }
  }

  lemma AgentIsAnAnswer(start: AgentStart, u: View, script: seq<Answer>, n: nat)
    ensures ShowsAgent(start, u, Nth(script, n)) ==> |From(script, n + 2)| < |From(script, n)|
  {
  }

  // agent.start and the polls after it.
  lemma LaunchIsReplied(b: Body, at: Situation, p: View, script: seq<Answer>, n: nat)
    requires b.StartBody? && at.h == HandleOfView(p) && at.rest == From(script, n)
    ensures Replied(b, at) ==
            if ShowsLaunch(b.start, p, Nth(script, n))
            then Some(at.(h := HandleOfView(Nth(script, n).view.value), rest := From(script, n + 1)))
            else None
  {
    NextOne(script, n);
  }

  lemma ShellIsRefreshed(at: Situation, p: View, script: seq<Answer>, n: nat)
    requires at.h == HandleOfView(p) && at.rest == From(script, n)
    ensures Refreshed(Launch, at) ==
            if ShowsShell(p, Nth(script, n)) then Some(at.(rest := From(script, n + 1))) else None
  {
    NextOne(script, n);
  }

  // The attempt at a launch, given how its polls went.
  lemma LaunchIsTried(b: Body, at: Situation, p: View, script: seq<Answer>, n: nat, done: Option<Situation>, k: nat)
    requires b.StartBody? && at.h == HandleOfView(p) && at.rest == From(script, n + 4)
    requires done == Mutated(b, Launch, at.(rest := From(script, n + 8)))
    requires done.Some? ==>
               done.value.rest == From(script, n + 10 + 2 * k)
    ensures Tried(b, Launch, at) ==
            if Nth(script, n + 4).expiry == Live && Holds(Nth(script, n + 5)) && ShowsShell(p, Nth(script, n + 6))
              && Holds(Nth(script, n + 7)) && done.Some? && Holds(Nth(script, n + 10 + 2 * k))
            then Some(done.value.(rest := From(script, n + 11 + 2 * k))) else None
  {
    hide From, Nth, NextAnswer, Rest, Refreshed, Mutated, Tried, ShowsShell;
    ShellIsRefreshed(at.(rest := From(script, n + 6)), p, script, n + 6);
    Attempt(b, Launch, at, script, n + 4, Refreshed(Launch, at.(rest := From(script, n + 6))), n + 7, done,
            n + 10 + 2 * k);
  }

  // The launch as it is asked for: the check, then the intent, then the attempt.
  lemma LaunchIsSpelledOut(b: Body, at: Situation, p: View, script: seq<Answer>, n: nat, k: nat)
    requires b.StartBody? && at.h == HandleOfView(p) && at.rest == From(script, n)
    requires LaunchAnswers(b.start, p, script, n, k)
    ensures Refreshed(Launch, at) == Some(at.(rest := From(script, n + 1)))
    ensures Nth(script, n + 1).expiry == Live && HookAccepts(From(script, n + 2))
    ensures Tried(b, Launch, at.(rest := From(script, n + 4))) ==
            Some(Situation(HandleOfView(SeenAt(script, n + 9 + 2 * k)), at.existing, From(script, n + 11 + 2 * k)))
  {
    hide From, Nth, NextAnswer, Rest, Refreshed, Tried, ShowsShell, ShowsLaunch, Awaited, ComesUp, Replied;
    ShellIsRefreshed(at, p, script, n);
    NextOne(script, n + 2);
    NextOne(script, n + 3);
    var tried := at.(rest := From(script, n + 8));
    LaunchIsReplied(b, tried, p, script, n + 8);
    ReplyHasView(b.start, p, Nth(script, n + 8));
    var u := Nth(script, n + 8).view.value;
    ComesUpIsAwaited(b, Replied(b, tried).value, u, script, n + 9, k);
    LaunchIsTried(b, at.(rest := From(script, n + 4)), p, script, n, Mutated(b, Launch, tried), k);
  }

  lemma ReplyHasView(start: AgentStart, p: View, a: Answer)
    requires ShowsLaunch(start, p, a)
    ensures a.view.Some?
  {
  }

  lemma LaunchWasAnswered(b: Body, at: Situation, p: View, script: seq<Answer>, n: nat) returns (k: nat)
    requires b.StartBody? && at.h == HandleOfView(p) && at.rest == From(script, n)
    requires Refreshed(Launch, at).Some? && Nth(script, n + 1).expiry == Live && HookAccepts(From(script, n + 2))
    requires Tried(b, Launch, at.(rest := From(script, n + 4))).Some?
    ensures LaunchAnswers(b.start, p, script, n, k)
  {
    hide From, Nth, NextAnswer, Rest, Refreshed, Tried, ShowsShell, ShowsLaunch, Awaited, ComesUp, Replied;
    ShellIsRefreshed(at, p, script, n);
    NextOne(script, n + 2);
    NextOne(script, n + 3);
    var tried := at.(rest := From(script, n + 8));
    LaunchIsReplied(b, tried, p, script, n + 8);
    k := 0;
    if Mutated(b, Launch, tried).None? {
      LaunchIsTried(b, at.(rest := From(script, n + 4)), p, script, n, None, k);
    } else {
      ReplyHasView(b.start, p, Nth(script, n + 8));
      var u := Nth(script, n + 8).view.value;
      k := AwaitedComesUp(b, Replied(b, tried).value, u, script, n + 9);
      ComesUpIsAwaited(b, Replied(b, tried).value, u, script, n + 9, k);
      LaunchIsTried(b, at.(rest := From(script, n + 4)), p, script, n, Mutated(b, Launch, tried), k);
    }
  }

  lemma AgentIsRefreshed(at: Situation, v: View, script: seq<Answer>, n: nat)
    requires at.h == HandleOfView(v) && at.rest == From(script, n)
    ensures Refreshed(Prompt, at) ==
            if ShowsReady(v, Nth(script, n)) && Nth(script, n).expiry == Live
            then Some(at.(rest := From(script, n + 1))) else None
  {
    NextOne(script, n);
  }

  lemma PromptIsReplied(b: Body, at: Situation, v: View, script: seq<Answer>, n: nat)
    requires at.h == HandleOfView(v) && at.rest == From(script, n)
    ensures Mutated(b, Prompt, at) ==
            if ShowsPrompted(v, Nth(script, n)) then Some(at.(rest := From(script, n + 1))) else None
  {
    NextOne(script, n);
  }

  lemma PromptIsSpelledOut(b: Body, at: Situation, v: View, script: seq<Answer>, n: nat)
    requires at.h == HandleOfView(v) && at.rest == From(script, n)
    ensures CheckedStored(b, Prompt, at) ==
            if PromptAnswers(v, script, n) && !Nth(script, n + 10).storage.NotStored?
            then Some(HookLeaves(From(script, n + 10))) else None
  {
    hide From, Nth, NextAnswer, Rest, Refreshed, Mutated, Tried, ShowsReady, ShowsPrompted, HookLeaves;
    AgentIsRefreshed(at, v, script, n);
    NextThree(script, n + 1);
    var begun := at.(rest := From(script, n + 4));
    AgentIsRefreshed(begun.(rest := From(script, n + 6)), v, script, n + 6);
    PromptIsReplied(b, begun.(rest := From(script, n + 8)), v, script, n + 8);
    Attempt(b, Prompt, begun, script, n + 4, Refreshed(Prompt, begun.(rest := From(script, n + 6))), n + 7,
            Mutated(b, Prompt, begun.(rest := From(script, n + 8))), n + 9);
    NextOne(script, n + 10);
  }

  // A stage's course, and its record, in terms of its attempt.
  lemma StageIsTried(b: Body, s: Stage, at: Situation, script: seq<Answer>, n: nat, done: Option<Situation>, m: nat)
    requires at.rest == From(script, n) && done == Tried(b, s, at.(rest := From(script, n + 3)))
    requires done.Some? ==> done.value.rest == From(script, m)
    ensures StageCourse(b, s, at) ==
            if Nth(script, n).expiry == Live && Taken(script, n + 1) && done.Some? && Taken(script, m)
            then Some(done.value.(rest := From(script, m + 2))) else None
    ensures StageStored(b, s, at) ==
            if Nth(script, n).expiry == Live && Taken(script, n + 1) && done.Some? && !Nth(script, m).storage.NotStored?
            then Some(HookLeaves(From(script, m))) else None
    ensures HookAccepts(From(script, n + 1)) == Taken(script, n + 1)
  {
    hide From, Nth, NextAnswer, Rest, Tried, HookLeaves;
    NextThree(script, n);
    NextOne(script, m);
    NextOne(script, m + 1);
  }

  // The launch on record, and the launch as the prompt finds it.
  lemma LaunchIsRecorded(b: Body, at: Situation, p: View, script: seq<Answer>, n: nat, k: nat)
    requires b.StartBody? && at.h == HandleOfView(p) && at.rest == From(script, n)
    requires LaunchAnswers(b.start, p, script, n, k)
    ensures CheckedStored(b, Launch, at) ==
            if Nth(script, n + 11 + 2 * k).storage.NotStored? then None
            else Some(HookLeaves(From(script, n + 11 + 2 * k)))
    ensures CheckedCourse(b, Launch, at) ==
            if Taken(script, n + 11 + 2 * k) then
              Some(Situation(HandleOfView(SeenAt(script, n + 9 + 2 * k)), at.existing, From(script, n + 13 + 2 * k)))
            else None
  {
    hide From, Nth, NextAnswer, Rest, Refreshed, Tried, HookLeaves, StageCourse, StageStored, HookAccepts, SeenAt;
    LaunchIsSpelledOut(b, at, p, script, n, k);
    var ready := at.(rest := From(script, n + 1));
    StageIsTried(b, Launch, ready, script, n + 1, Tried(b, Launch, at.(rest := From(script, n + 4))), n + 11 + 2 * k);
  }

  lemma LaunchWasRecorded(b: Body, at: Situation, p: View, script: seq<Answer>, n: nat) returns (k: nat)
    requires b.StartBody? && at.h == HandleOfView(p) && at.rest == From(script, n)
    requires CheckedStored(b, Launch, at).Some? || CheckedCourse(b, Launch, at).Some?
    ensures LaunchAnswers(b.start, p, script, n, k)
  {
    hide From, Nth, NextAnswer, Rest, Refreshed, Tried, HookLeaves, ShowsShell, LaunchAnswers;
    ShellIsRefreshed(at, p, script, n);
    NextOne(script, n + 1);
    NextOne(script, n + 2);
    NextOne(script, n + 3);
    k := LaunchWasAnswered(b, at, p, script, n);
  }

  /** A start is on record as complete exactly if every answer is the one that is asked for: a new pane
      of the workspace, a shell in it, the requested provider coming up there after k more polls, and,
      where a prompt was asked for, that same agent idle and replying. */
  lemma StartIsSpelledOut(b: Body, prompted: bool, at: Situation, script: seq<Answer>, n: nat)
    requires b.StartBody? && at.rest == From(script, n)
    ensures StartStored(b, prompted, at).Some? <==> exists k: nat :: StartAnswers(b.start, prompted, script, n, k)
    ensures forall k: nat | StartAnswers(b.start, prompted, script, n, k) ::
              StartStored(b, prompted, at) ==
              Some(HookLeaves(From(script, if prompted then n + 40 + 2 * k else n + 28 + 2 * k)))
  {
    forall k: nat | StartAnswers(b.start, prompted, script, n, k)
      ensures StartStored(b, prompted, at) ==
              Some(HookLeaves(From(script, if prompted then n + 40 + 2 * k else n + 28 + 2 * k)))
    {
      AnsweredStartIsStored(b, prompted, at, script, n, k);
    }
    if StartStored(b, prompted, at).Some? {
      var k := StoredStartWasAnswered(b, prompted, at, script, n);
    }
  }

  lemma AnsweredStartIsStored(b: Body, prompted: bool, at: Situation, script: seq<Answer>, n: nat, k: nat)
    requires b.StartBody? && at.rest == From(script, n) && StartAnswers(b.start, prompted, script, n, k)
    ensures StartStored(b, prompted, at) ==
            Some(HookLeaves(From(script, if prompted then n + 40 + 2 * k else n + 28 + 2 * k)))
  {
    hide From, Nth, PaneAnswers, LaunchAnswers, PromptAnswers, PaneCourse, CheckedCourse, CheckedStored, HookLeaves,
         SeenAt;
    PaneIsSpelledOut(b, at, script, n);
    PaneHasView(b.start, script, n);
    var p := Nth(script, n + 13).created.value.pane;
    var made := PaneCourse(b, at).value;
    LaunchIsRecorded(b, made, p, script, n + 17, k);
    assert n + 17 + 9 + 2 * k == n + 26 + 2 * k;
    if prompted {
      PromptIsSpelledOut(b, CheckedCourse(b, Launch, made).value, Launchee(script, n, k), script, n + 30 + 2 * k);
    }
  }

  lemma StoredStartWasAnswered(b: Body, prompted: bool, at: Situation, script: seq<Answer>, n: nat) returns (k: nat)
    requires b.StartBody? && at.rest == From(script, n) && StartStored(b, prompted, at).Some?
    ensures StartAnswers(b.start, prompted, script, n, k)
  {
    hide From, Nth, PaneAnswers, LaunchAnswers, PromptAnswers, PaneCourse, CheckedCourse, CheckedStored, HookLeaves,
         SeenAt;
    PaneIsSpelledOut(b, at, script, n);
    PaneHasView(b.start, script, n);
    var p := Nth(script, n + 13).created.value.pane;
    var made := PaneCourse(b, at).value;
    k := LaunchWasRecorded(b, made, p, script, n + 17);
    LaunchIsRecorded(b, made, p, script, n + 17, k);
    assert n + 17 + 9 + 2 * k == n + 26 + 2 * k;
    if prompted {
      PromptIsSpelledOut(b, CheckedCourse(b, Launch, made).value, Launchee(script, n, k), script, n + 30 + 2 * k);
    }
  }

  lemma PaneHasView(start: AgentStart, script: seq<Answer>, n: nat)
    requires PaneAnswers(start, script, n)
    ensures Nth(script, n + 13).created.Some?
  {
  }
}
