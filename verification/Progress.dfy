/** Success is within reach: for every valid lifecycle command there is a run in which nothing goes
    wrong, so what is proved about undisturbed runs is about some run of every command.
 */
module Progress {
  import opened Messages
  import opened Receipts
  import opened Outcomes
  import opened Courses
  import opened Adapter
  import opened Requests
  import opened Execution

  // An answer that is as good as it can be: it shows this pane, and these panes.
  function Calm(v: NativeView, panes: seq<NativeView>): Answer {
    Answer(Live, [], false, Stored, true, Some(Created(v, true, false)), Some(v), Some(panes), true)
  }

  predicate IsCalm(a: Answer) {
    a.view.Some? && a.panes.Some? && a == Calm(a.view.value, a.panes.value)
  }

  function Many(a: Answer, n: nat): seq<Answer> {
    seq(n, _ => a)
  }

  // The next question is answered by the first of many equal answers.
  lemma Next(a: Answer, n: nat, t: seq<Answer>)
    ensures n > 0 ==> NextAnswer(Many(a, n) + t) == a && Rest(Many(a, n) + t) == Many(a, n - 1) + t
    ensures n == 0 ==> Many(a, n) + t == t
  {
    if n > 0 {
      assert (Many(a, n) + t)[0] == a;
      assert (Many(a, n) + t)[1..] == Many(a, n - 1) + t;
    }
  }

  // And so are the next three.
  lemma NextThree(a: Answer, n: nat, t: seq<Answer>)
    requires n >= 3
    ensures var script := Many(a, n) + t;
            && NextAnswer(script) == NextAnswer(Rest(script)) == NextAnswer(Rest(Rest(script))) == a
            && Rest(script) == Many(a, n - 1) + t && Rest(Rest(script)) == Many(a, n - 2) + t
            && Rest(Rest(Rest(script))) == Many(a, n - 3) + t
  {
    Next(a, n, t);
    Next(a, n - 1, t);
    Next(a, n - 2, t);
  }

  lemma CalmIsKnown(a: Answer, n: nat, z: Answer, m: nat)
    requires IsCalm(a) && IsCalm(z)
    ensures KnownScript(Many(a, n) + (Many(z, m) + []))
  {
  }

  /** A stage whose target check and whose mutation succeed among calm answers succeeds. */
  lemma CalmStage(b: Body, s: Stage, at: Situation, a: Answer, n: nat, t: seq<Answer>, ready: Situation, k: nat,
        done: Situation, z: Answer, j: nat, u: seq<Answer>)
    requires IsCalm(a) && IsCalm(z) && n >= 5 && k >= 1 && j >= 3
    requires at.rest == Many(a, n) + t
    requires Refreshed(s, at.(rest := Many(a, n - 5) + t)) == Some(ready) && ready.rest == Many(a, k) + t
    requires Mutated(b, s, ready.(rest := Many(a, k - 1) + t)) == Some(done) && done.rest == Many(z, j) + u
    ensures StageCourse(b, s, at) == Some(done.(rest := Many(z, j - 3) + u))
  {
    hide Refreshed, Mutated, Many, Rest, NextAnswer;
    NextThree(a, n, t);
    NextThree(a, n - 2, t);
    Next(a, k, t);
    NextThree(z, j, u);
    assert Fenced(b, s, ready.(rest := Many(a, k - 1) + t)) == Some(done.(rest := Many(z, j - 1) + u));
    assert Guarded(b, s, at.(rest := Many(a, n - 4) + t)) == Some(done.(rest := Many(z, j - 1) + u));
  }

  /******* A start *******/

  // The created pane: an idle shell.
  function Shell(workspace: string): View {
    View(workspace, "tab", "pane", "terminal", "", UnknownProvider, Idle, false, false)
  }

  // The same pane once the provider runs in it.
  function Agent(workspace: string, p: Provider): View {
    Shell(workspace).(provider := p, interactiveReady := true)
  }

  lemma ViewsParse(workspace: string, p: Provider)
    requires Token(workspace) && !p.NoProvider?
    ensures ParsedView(Shell(workspace)) && ParsedView(Agent(workspace, p))
  {
  }

  lemma PaneSucceeds(b: Body, at: Situation, a: Answer, n: nat, t: seq<Answer>)
    requires b.StartBody? && IsCalm(a) && a.view.value == Shell(b.start.workspace) && a.panes == Some([])
    requires n >= 17 && at.rest == Many(a, n) + t
    ensures PaneCourse(b, at) == Some(Situation(HandleOfView(a.view.value), [], Many(a, n - 17) + t))
  {
    NextThree(a, n, t);
    NextThree(a, n - 2, t);
    NextThree(a, n - 4, t);
    var from := Situation(at.h.(workspace := b.start.workspace), [], Many(a, n - 4) + t);
    assert Prepared(at) == Some(from.(h := at.h));
    NextThree(a, n - 9, t);
    Next(a, n - 13, t);
    var ready := from.(rest := Many(a, n - 12) + t);
    assert Refreshed(CreatePane, from.(rest := Many(a, n - 9) + t)) == Some(ready);
    var done := Situation(HandleOfView(a.view.value), [], Many(a, n - 14) + t);
    assert Mutated(b, CreatePane, ready.(rest := Many(a, n - 13) + t)) == Some(done);
    CalmStage(b, CreatePane, from, a, n - 4, t, ready, n - 12, done, a, n - 14, t);
  }

  // The first poll finds the agent ready.
  lemma ReadyAtOnce(b: Body, at: Situation, z: Answer)
    requires b.StartBody? && b.start.provider.Named? && IsCalm(z)
    requires z.view.value == Agent(b.start.workspace, b.start.provider) && at.h == HandleOfView(z.view.value)
    requires NextAnswer(at.rest) == z
    ensures Awaited(b, at) == Some(at.(rest := Rest(at.rest)))
  {
    assert Launched(b, z.view.value) && LaunchSeen(b, at.h, z.view.value);
  }

  lemma LaunchSucceeds(b: Body, at: Situation, a: Answer, z: Answer, m: nat, u: seq<Answer>)
    requires b.StartBody? && b.start.provider.Named? && IsCalm(a) && IsCalm(z)
    requires a.view.value == Shell(b.start.workspace) && z.view.value == Agent(b.start.workspace, b.start.provider)
    requires at.h == HandleOfView(a.view.value) && m >= 5 && at.rest == Many(a, 8) + (Many(z, m) + u)
    ensures CheckedCourse(b, Launch, at) == Some(Situation(HandleOfView(z.view.value), at.existing, Many(z, m - 5) + u))
  {
    hide Awaited, StageCourse, Rest, NextAnswer, Many;
    var t := Many(z, m) + u;
    Next(a, 8, t);
    Next(a, 2, t);
    Next(a, 0, t);
    Next(z, m, u);
    Next(z, m - 1, u);
    var from := at.(rest := Many(a, 7) + t);
    assert Refreshed(Launch, at) == Some(from);
    var ready := from.(rest := Many(a, 1) + t);
    assert Refreshed(Launch, from.(rest := Many(a, 2) + t)) == Some(ready);
    var done := Situation(HandleOfView(z.view.value), at.existing, Many(z, m - 2) + u);
    assert Replied(b, ready.(rest := Many(a, 0) + t)) == Some(done.(rest := Many(z, m - 1) + u));
    ReadyAtOnce(b, done.(rest := Many(z, m - 1) + u), z);
    CalmStage(b, Launch, from, a, 7, t, ready, 1, done, z, m - 2, u);
  }

  lemma PromptSucceeds(b: Body, at: Situation, z: Answer, m: nat, u: seq<Answer>)
    requires b.StartBody? && IsCalm(z) && z.view.value == Agent(b.start.workspace, b.start.provider)
    requires at.h == HandleOfView(z.view.value) && m >= 12 && at.rest == Many(z, m) + u
    ensures CheckedCourse(b, Prompt, at) == Some(at.(rest := Many(z, m - 12) + u))
  {
    Next(z, m, u);
    Next(z, m - 6, u);
    Next(z, m - 8, u);
    var from := at.(rest := Many(z, m - 1) + u);
    assert Refreshed(Prompt, at) == Some(from);
    var ready := from.(rest := Many(z, m - 7) + u);
    assert Refreshed(Prompt, from.(rest := Many(z, m - 6) + u)) == Some(ready);
    var done := from.(rest := Many(z, m - 9) + u);
    assert Mutated(b, Prompt, ready.(rest := Many(z, m - 8) + u)) == Some(done);
    CalmStage(b, Prompt, from, z, m - 1, u, ready, m - 7, done, z, m - 9, u);
  }

  /******* A foreign pane *******/

  // The created pane, in which some other provider already runs.
  function Occupied(workspace: string, p: Provider): View {
    Shell(workspace).(provider := p)
  }

  lemma ForeignPaneAppears(b: Body, at: Situation, a: Answer, n: nat, t: seq<Answer>, p: Provider)
    requires b.StartBody? && p.Named? && p != b.start.provider
    requires IsCalm(a) && a.view.value == Occupied(b.start.workspace, p) && a.panes == Some([])
    requires n >= 17 && at.rest == Many(a, n) + t
    ensures ForeignStart(b, at)
  {
    hide Many, Rest, NextAnswer, StageCourse;
    NextThree(a, n, t);
    NextThree(a, n - 2, t);
    NextThree(a, n - 4, t);
    var from := Situation(at.h.(workspace := b.start.workspace), [], Many(a, n - 4) + t);
    assert Prepared(at) == Some(from.(h := at.h));
    NextThree(a, n - 6, t);
    NextThree(a, n - 9, t);
    Next(a, n - 12, t);
    NextThree(a, n - 13, t);
    var ready := from.(rest := Many(a, n - 12) + t);
    assert Refreshed(CreatePane, from.(rest := Many(a, n - 9) + t)) == Some(ready);
    assert ForeignFenced(b, ready.(rest := Many(a, n - 13) + t));
    assert ForeignGuarded(b, from.(rest := Many(a, n - 8) + t));
  }

  /** Every start can meet a foreign pane: for every valid start, every ready node and every other
      provider there is a run in which the journal refuses the adapter's receipt. */
  lemma EveryStartCanMeetAForeignPane(c: Command, node: string, setting: Setting, p: Provider)
    returns (script: seq<Answer>)
    requires ValidCommand(c, node) && c.body.StartBody? && p.Named? && p != c.body.start.provider
    requires setting.ready && setting.bound && ResolveSession(BodySession(c.body).1, setting.session).Resolved?
    ensures KnownScript(script) && ForeignCourse(c, setting, script)
  {
    hide ForeignStart, Many, Rest, NextAnswer, KnownScript, ValidCommand, ResolveSession;
    EffectiveStartIsSubmitted(c, node);
    StartIsNamed(c, node);
    var w := c.body.start;
    ViewsParse(w.workspace, p);
    assert ParsedView(Occupied(w.workspace, p));
    var a := Calm(Occupied(w.workspace, p), []);
    var t := Many(a, 0) + [];
    script := Many(a, 20) + t;
    CalmIsKnown(a, 20, a, 0);
    NextThree(a, 20, t);
    ForeignPaneAppears(c.body, Situation(InitialResult(c).handle, [], Many(a, 17) + t), a, 17, t, p);
  }

  /******* A stop *******/

  function Doomed(stop: AgentStop): View {
    View(stop.workspace, stop.tab, stop.target.pane, stop.target.terminal, stop.target.agentSession, stop.provider,
         Idle, true, false)
  }

  // A pane of the workspace that stays.
  function Other(stop: AgentStop): View {
    Doomed(stop).(pane := if stop.target.pane == "pane" then "other" else "pane")
  }

  lemma DoomedIsClosable(stop: AgentStop, panes: seq<View>)
    requires panes == [Doomed(stop), Other(stop)]
    ensures PaneIsClosable(StopHandle(stop), panes)
  {
    var h := StopHandle(stop);
    assert panes[0].pane == h.pane && panes[0].workspace == panes[1].workspace == h.workspace;
  }

  lemma StopSucceeds(b: Body, at: Situation, a: Answer, z: Answer, m: nat, u: seq<Answer>)
    requires b.StopBody? && IsCalm(a) && IsCalm(z) && at.h == StopHandle(b.stop)
    requires a.view.value == Doomed(b.stop) && a.panes.value == [Doomed(b.stop), Other(b.stop)] && z.panes == Some([])
    requires m >= 6 && at.rest == Many(a, 14) + (Many(z, m) + u)
    ensures StopCourse(b, at) == Some(at.(rest := Many(z, m - 6) + u))
  {
    hide StageCourse, Rest, NextAnswer, Many, Other, PaneIsClosable;
    var t := Many(z, m) + u;
    NextThree(a, 14, t);
    NextThree(a, 12, t);
    NextThree(a, 4, t);
    Next(a, 0, t);
    NextThree(z, m, u);
    DoomedIsClosable(b.stop, a.panes.value);
    var open, from := at.(rest := Many(a, 12) + t), at.(rest := Many(a, 9) + t);
    assert Opened(at) == Some(open);
    assert Refreshed(ClosePane, open) == Some(from);
    var ready := from.(rest := Many(a, 1) + t);
    assert Refreshed(ClosePane, from.(rest := Many(a, 4) + t)) == Some(ready);
    var done := from.(rest := Many(z, m - 3) + u);
    assert Mutated(b, ClosePane, ready.(rest := Many(a, 0) + t)) == Some(done);
    CalmStage(b, ClosePane, from, a, 9, t, ready, 1, done, z, m - 3, u);
  }

  /******* Every command *******/

  /** For every valid command and every node that is ready for it there is an undisturbed run, so by
      the contract of lifecycleMutation every valid command can succeed. */
  lemma EveryCommandCanSucceed(c: Command, node: string, setting: Setting) returns (script: seq<Answer>)
    requires ValidCommand(c, node) && IsLifecycle(c.body)
    requires setting.ready && (c.body.StartBody? ==> setting.bound)
    requires ResolveSession(BodySession(c.body).1, setting.session).Resolved?
    ensures KnownScript(script) && Undisturbed(c, setting, script)
  {
    if c.body.StartBody? {
      script := StartScript(c, node);
    } else {
      script := StopScript(c, node);
    }
  }

  lemma StartIsNamed(c: Command, node: string)
    requires ValidCommand(c, node) && c.body.StartBody?
    ensures Token(c.body.start.workspace) && c.body.start.provider.Named?
  {
  }

  lemma StartScript(c: Command, node: string) returns (script: seq<Answer>)
    requires ValidCommand(c, node) && c.body.StartBody?
    ensures KnownScript(script) && NextAnswer(script).storage.Stored?
    ensures Concludes(c, Situation(InitialResult(c).handle, [], Rest(script)))
  {
    hide StartCourse, ValidCommand, Many, Rest, NextAnswer, KnownScript;
    EffectiveStartIsSubmitted(c, node);
    StartIsNamed(c, node);
    var w := c.body.start;
    ViewsParse(w.workspace, w.provider);
    var a, z := Calm(Shell(w.workspace), []), Calm(Agent(w.workspace, w.provider), []);
    var u: seq<Answer> := [];
    var t := Many(z, 18) + u;
    script := Many(a, 28) + t;
    CalmIsKnown(a, 28, z, 18);
    NextThree(a, 28, t);
    var at := Situation(InitialResult(c).handle, [], Many(a, 25) + t);
    StartSucceeds(c.body, at, a, z, u);
    Next(z, 13, u);
    Next(z, 1, u);
  }

  lemma StartSucceeds(b: Body, at: Situation, a: Answer, z: Answer, u: seq<Answer>)
    requires b.StartBody? && b.start.provider.Named? && IsCalm(a) && IsCalm(z)
    requires a.view.value == Shell(b.start.workspace) && z.view.value == Agent(b.start.workspace, b.start.provider)
    requires a.panes == Some([]) && at.rest == Many(a, 25) + (Many(z, 18) + u)
    ensures StartCourse(b, false, at) == Some(Situation(HandleOfView(z.view.value), [], Many(z, 13) + u))
    ensures StartCourse(b, true, at) == Some(Situation(HandleOfView(z.view.value), [], Many(z, 1) + u))
  {
    hide PaneCourse, CheckedCourse, Many, Shell, Agent;
    PaneSucceeds(b, at, a, 25, Many(z, 18) + u);
    var made := Situation(HandleOfView(a.view.value), [], Many(a, 8) + (Many(z, 18) + u));
    LaunchSucceeds(b, made, a, z, 18, u);
    PromptSucceeds(b, Situation(HandleOfView(z.view.value), [], Many(z, 13) + u), z, 13, u);
  }

  lemma StopScript(c: Command, node: string) returns (script: seq<Answer>)
    requires ValidCommand(c, node) && c.body.StopBody?
    ensures KnownScript(script) && NextAnswer(script).storage.Stored?
    ensures Concludes(c, Situation(InitialResult(c).handle, [], Rest(script)))
  {
    hide StopCourse, Many, Rest, NextAnswer, KnownScript;
    var stop := c.body.stop;
    assert ParsedView(Doomed(stop)) && ParsedView(Other(stop));
    var a, z := Calm(Doomed(stop), [Doomed(stop), Other(stop)]), Calm(Doomed(stop), []);
    var u: seq<Answer> := [];
    var t := Many(z, 7) + u;
    script := Many(a, 16) + t;
    CalmIsKnown(a, 16, z, 7);
    Next(a, 16, t);
    Next(a, 15, t);
    StopSucceeds(c.body, Situation(InitialResult(c).handle, [], Many(a, 14) + t), a, z, 7, u);
    Next(z, 1, u);
  }
}
