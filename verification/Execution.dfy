/** The node's execution of one claimed lifecycle command, from session selection to the terminal
    result it hands to the journal.
 */
module Execution {
  import opened Messages
  import opened Receipts
  import opened Outcomes
  import opened Histories
  import opened Traces
  import opened Courses
  import opened Adapter
  import opened Requests
  import opened Transcripts

  datatype SessionReply = Resolved(incarnation: string) | Unresolved(err: Errors)

  // resolveSession: what the session manager or the socket reports, checked against the pin.
  function ResolveSession(expected: string, seen: SessionReply): (r: SessionReply)
    ensures r.Resolved? ==> Incarnation(r.incarnation) && (expected != "" ==> r.incarnation == expected)
  {
    if seen.Unresolved? then seen
    else if !Incarnation(seen.incarnation) then Unresolved([SessionFailure(SessionUnavailable)])
    else if expected != "" && expected != seen.incarnation then Unresolved([SessionFailure(SessionReplaced)])
    else seen
  }

  // What the node knows before it looks at the journal: its own configuration and negotiation,
  // the selected session, and whether the project is bound at the command's revision.
  datatype Setting = Setting(ready: bool, session: SessionReply, bound: bool)

  predicate KnownSetting(s: Setting) {
    s.session.Unresolved? ==> SessionFailures(s.session.err) && KnownSessionCodes(s.session.err)
  }

  datatype Finish = Finished(result: Result) | StorageFailed

  // A rejection before anything is recorded.
  function Refusal(c: Command, detail: Detail): Result {
    Result(c.id, Rejected, detail, None)
  }

  predicate SessionFailures(err: Errors) {
    err != [] && forall i | 0 <= i < |err| :: err[i].SessionFailure?
  }

  lemma ResolutionIsKnown(expected: string, s: Setting)
    requires KnownSetting(s)
    ensures ResolveSession(expected, s.session).Unresolved? ==>
              && SessionFailures(ResolveSession(expected, s.session).err)
              && KnownSessionCodes(ResolveSession(expected, s.session).err)
  {
  }

  lemma SessionDetailIsKnown(err: Errors)
    requires SessionFailures(err) && KnownSessionCodes(err)
    ensures ValidSessionError(ErrorDetail(err)) || ErrorDetail(err) == AuthorizationChanged
  {
    FirstFailureIsKnown(err);
    assert err[0].SessionFailure?;
  }

  lemma ReplacedSessionDetail()
    ensures ErrorDetail([SessionFailure(SessionUnavailable)]) == SessionUnavailable
    ensures ErrorDetail([SessionFailure(SessionReplaced)]) == SessionReplaced
  {
  }

  lemma RefusalIsHonest(c: Command, detail: Detail)
    requires IsLifecycle(c.body)
    requires ValidSessionError(detail) || detail in {AuthorizationChanged, ProjectNotAuthorized, LifecycleUnresolved}
    ensures ValidResult(Refusal(c, detail), c) && DeliverableResult(Refusal(c, detail))
    ensures Honest(Refusal(c, detail), [], c)
  {
  }

  // The end of lifecycleMutation: the reloaded row and the error decide the result.
  lemma ClassificationIsHonest(c: Command, trace: seq<Event>, err: Errors)
    requires IsLifecycle(c.body) && WriteAhead(trace, c) && Durable(trace).Some? && KnownSessionCodes(err)
    ensures var r := Classify(c.id, Durable(trace), err, c);
            ValidResult(r, c) && DeliverableResult(r) && Honest(r, Sent(trace), c)
  {
    hide ValidReceipt, ValidResult, DeliverableResult, Honest, KnownSessionCodes, ErrorDetail;
    WriteAheadIsTruthful(trace, c);
    DurableIsValid(trace, c);
    CompletionIsAccepted(Durable(trace).value, err, c);
    assert Classify(c.id, Durable(trace), err, c).receipt == Durable(trace);
    TruthfulResultsAreHonest(Classify(c.id, Durable(trace), err, c), trace, c);
  }

  // What lifecycleMutation promises about its result.
  ghost predicate Faithful(finish: Finish, trace: seq<Event>, c: Command) {
    finish.Finished? ==>
      ValidResult(finish.result, c) && DeliverableResult(finish.result) && Honest(finish.result, Sent(trace), c)
  }

  /******* Undisturbed runs *******/

  // From the session check to the end of the native run.
  function PerformCourse(c: Command, at: Situation): Option<Situation> {
    var next := Rest(at.rest);
    if !SessionHolds(NextAnswer(at.rest)) then None
    else if c.body.StopBody? then StopCourse(c.body, at.(rest := next))
    else if !c.body.StartBody? || EffectiveStart(c).None? || NextAnswer(next).fails then None
    else StartCourse(c.body, PromptRequested(c), at.(rest := Rest(next)))
  }

  // The native run succeeds, and so does reading the row back.
  predicate Concludes(c: Command, at: Situation) {
    PerformCourse(c, at).Some? && !NextAnswer(PerformCourse(c, at).value.rest).fails
  }

  // Nothing goes wrong: the node is ready and every answer of the script is the one hoped for.
  predicate Undisturbed(c: Command, setting: Setting, script: seq<Answer>) {
    && setting.ready && (c.body.StartBody? ==> setting.bound)
    && ResolveSession(BodySession(c.body).1, setting.session).Resolved?
    && NextAnswer(script).storage.Stored?
    && Concludes(c, Situation(InitialResult(c).handle, [], Rest(script)))
  }

  // The native run is on record as complete, and the answers that are left.
  function PerformStored(c: Command, at: Situation): Option<seq<Answer>> {
    var next := Rest(at.rest);
    if !SessionHolds(NextAnswer(at.rest)) then None
    else if c.body.StopBody? then StopStored(c.body, at.(rest := next))
    else if !c.body.StartBody? || EffectiveStart(c).None? || NextAnswer(next).fails then None
    else StartStored(c.body, PromptRequested(c), at.(rest := Rest(next)))
  }

  // And the row can be read back.
  predicate Recorded(c: Command, at: Situation) {
    PerformStored(c, at).Some? && !NextAnswer(PerformStored(c, at).value).fails
  }

  // After the outcome of the last stage, which is the n-th answer, the row is read back.
  predicate ReadBack(script: seq<Answer>, n: nat) {
    if Nth(script, n).storage.Stored? then !Nth(script, n + 2).fails else !Nth(script, n + 1).fails
  }

  // The command is carried out and known to be: the node is ready for it, its session is the pinned
  // one, and the answers are those of a whole stop, or of a whole start with k more polls.
  ghost predicate Accomplished(c: Command, setting: Setting, script: seq<Answer>) {
    && setting.ready && (c.body.StartBody? ==> setting.bound)
    && setting.session.Resolved? && Incarnation(setting.session.incarnation)
    && (BodySession(c.body).1 != "" ==> BodySession(c.body).1 == setting.session.incarnation)
    && Nth(script, 0).storage.Stored? && Holds(Nth(script, 1))
    && match c.body
       case StopBody(stop) => StopAnswers(stop, script, 2) && ReadBack(script, 20)
       case StartBody(start) =>
         && !Nth(script, 2).fails
         && exists k: nat ::
              && StartAnswers(start, PromptRequested(c), script, 3, k)
              && ReadBack(script, if PromptRequested(c) then 43 + 2 * k else 31 + 2 * k)
       case _ => false
  }

  lemma ReadBackIsNext(script: seq<Answer>, n: nat)
    ensures !NextAnswer(HookLeaves(From(script, n))).fails <==> ReadBack(script, n)
  {
    NextOne(script, n);
    NextOne(script, n + 1);
    NextOne(script, n + 2);
  }

  lemma RecordIsSpelledOut(c: Command, node: string, script: seq<Answer>)
    requires ValidCommand(c, node) && IsLifecycle(c.body)
    ensures Recorded(c, Situation(InitialResult(c).handle, [], Rest(script))) <==>
            && Holds(Nth(script, 1))
            && match c.body
               case StopBody(stop) => StopAnswers(stop, script, 2) && ReadBack(script, 20)
               case StartBody(start) =>
                 && !Nth(script, 2).fails
                 && exists k: nat ::
                      && StartAnswers(start, PromptRequested(c), script, 3, k)
                      && ReadBack(script, if PromptRequested(c) then 43 + 2 * k else 31 + 2 * k)
               case _ => false
  {
    hide ValidCommand, StopAnswers, StartAnswers, ReadBack, StartStored, StopStored, HookLeaves;
    assert From(script, 0) == script;
    NextThree(script, 0);
    var at := Situation(InitialResult(c).handle, [], From(script, 2));
    if c.body.StopBody? {
      StopIsSpelledOut(c.body, at, script, 2);
      ReadBackIsNext(script, 20);
    } else {
      EffectiveStartIsSubmitted(c, node);
      var prompted := PromptRequested(c);
      StartIsSpelledOut(c.body, prompted, at.(rest := From(script, 3)), script, 3);
      forall k: nat ensures var n := if prompted then 43 + 2 * k else 31 + 2 * k;
                            !NextAnswer(HookLeaves(From(script, n))).fails <==> ReadBack(script, n) {
        ReadBackIsNext(script, if prompted then 43 + 2 * k else 31 + 2 * k);
      }
    }
  }

  lemma AccomplishmentIsSpelledOut(c: Command, node: string, setting: Setting, script: seq<Answer>)
    requires ValidCommand(c, node) && IsLifecycle(c.body)
    ensures Accomplished(c, setting, script) <==>
            && setting.ready && (c.body.StartBody? ==> setting.bound)
            && ResolveSession(BodySession(c.body).1, setting.session).Resolved?
            && NextAnswer(script).storage.Stored?
            && Recorded(c, Situation(InitialResult(c).handle, [], Rest(script)))
    ensures Accomplished(c, setting, script) && c.body.StopBody? ==> StopAnswers(c.body.stop, script, 2)
  {
    hide ValidCommand, StopAnswers, StartAnswers, ReadBack, Recorded, Holds;
    FirstAnswer(script);
    RecordIsSpelledOut(c, node, script);
  }

  // The start's created pane turns out to be another provider's: the answers are good up to the
  // reply to tab.create, which shows one, and the session still holds after it.
  predicate ForeignCourse(c: Command, setting: Setting, script: seq<Answer>) {
    && setting.ready && (c.body.StartBody? ==> setting.bound)
    && ResolveSession(BodySession(c.body).1, setting.session).Resolved?
    && NextAnswer(script).storage.Stored?
    && ForeignPerform(c, Situation(InitialResult(c).handle, [], Rest(script)))
  }

  predicate ForeignPerform(c: Command, at: Situation) {
    && SessionHolds(NextAnswer(at.rest)) && c.body.StartBody? && EffectiveStart(c).Some?
    && !NextAnswer(Rest(at.rest)).fails
    && ForeignStart(c.body, at.(rest := Rest(Rest(at.rest))))
  }

  // What is left when the journal has refused the receipt of a foreign pane: the one mutation that
  // was sent is on record as possible.
  ghost predicate LeftOpen(row: Option<Receipt>, trace: seq<Event>) {
    Sent(trace) == [CreatePane] && row.Some? && row.value.pane == Unknown
  }

  function Success(c: Command, row: Option<Receipt>): Finish {
    Finished(Result(c.id, Succeeded, if c.body.StopBody? then AgentStopped else AgentStarted, row))
  }

  lemma CompleteSucceeds(c: Command, trace: seq<Event>, err: Errors)
    requires IsLifecycle(c.body) && WriteAhead(trace, c) && Complete(Durable(trace), c)
    ensures Finished(Classify(c.id, Durable(trace), err, c)) == Success(c, Durable(trace))
  {
    WriteAheadIsTruthful(trace, c);
    DurableIsValid(trace, c);
    CompleteIsCertain(Durable(trace), c);
  }

  /******* The run *******/

  lemma FirstAnswer(script: seq<Answer>)
    ensures NextAnswer(script) == Nth(script, 0)
  {
  }

  // Without a stage on record nothing is complete.
  lemma NothingComplete(trace: seq<Event>, c: Command)
    requires IsLifecycle(c.body) && WriteAhead(trace, c) && Durable(trace).Some? && Durable(trace).value.stages == []
    ensures !Complete(Durable(trace), c)
  {
    hide WriteAhead, Durable;
    NotConfirmedYet(trace, c, 0);
  }

  // The initial checkpoint: nothing may start before it is durable.
  method Checkpoint(run: LifecycleRun) returns (started: bool, finish: Finish)
    requires run.Safe() && run.trace == [] && !run.refused && !run.foreign && run.result == InitialResult(run.command)
    requires run.receipt == WireReceipt(run.result, run.name, run.incarnation, CommandWorkspace(run.command), [])
    modifies run
    ensures run.Safe() && !run.refused && !run.foreign
    ensures started ==> run.Starting()
    ensures started <==> NextAnswer(old(run.script)).storage.Stored?
    ensures run.At() == old(run.At()).(rest := Rest(old(run.script)))
    ensures !started && finish.Finished? ==>
            && finish.result.receipt == run.durable && Faithful(finish, run.trace, run.command)
            && finish.result.status == Rejected
    ensures KnownScript(old(run.script)) ==> KnownScript(run.script)
  {
    hide WriteAhead, ValidReceipt, ValidResult, DeliverableResult, Runnable, KnownScript;
    var c := run.command;
    InitialReceiptIsValid(c, run.name, run.incarnation);
    var err := run.Save(run.receipt);
    started, finish := err == [], StorageFailed;
    if UnresolvedTarget in err {
      RefusalIsHonest(c, LifecycleUnresolved);
      finish := Finished(Refusal(c, LifecycleUnresolved));
    }
  }

  // The session check, the workspace lookup of a start, and the native run.
  method Perform(run: LifecycleRun) returns (err: Errors)
    requires run.Starting() && IsLifecycle(run.command.body)
    modifies run
    ensures run.Ended(err)
    ensures run.refused <==> ForeignPerform(run.command, old(run.At()))
    ensures run.refused ==> LeftOpen(run.durable, run.trace)
    ensures PerformCourse(run.command, old(run.At())) == if err == [] then Some(run.At()) else None
    ensures var stored := PerformStored(run.command, old(run.At()));
            (Complete(run.durable, run.command) <==> stored.Some?) && (stored.Some? ==> run.script == stored.value)
    ensures KnownScript(old(run.script)) ==> KnownScript(run.script) && KnownSessionCodes(err)
  {
    hide WriteAhead, ValidReceipt, Runnable, Repeats, InitialResult, Complete, Sent, EffectiveStart, Durable,
         HonestRow, KnownScript, StartCourse, StopCourse, StartStored, StopStored, ForeignStart, Rest, NextAnswer,
         SessionHolds;
    NothingComplete(run.trace, run.command);
    err := run.CheckSession();
    if err != [] {
      return;
    }
    if run.command.body.StopBody? {
      err := run.Stop();
      return;
    }
    var a := run.Ask();
    if EffectiveStart(run.command).None? || a.fails {
      return if a.session == [] then [OtherFailure] else a.session;
    }
    err := run.Start();
  }

  // From the checkpoint to the result.
  method Conduct(run: LifecycleRun) returns (finish: Finish)
    requires run.Starting() && IsLifecycle(run.command.body)
    modifies run
    ensures run.Safe() && (run.refused <==> ForeignPerform(run.command, old(run.At())))
    ensures run.refused ==> LeftOpen(run.durable, run.trace)
    ensures finish.Finished? ==> finish.result.receipt == run.durable
    ensures run.refused && finish.Finished? ==> finish.result.status == Indeterminate
    ensures KnownScript(old(run.script)) ==> Faithful(finish, run.trace, run.command)
    ensures Concludes(run.command, old(run.At())) ==>
              finish == Success(run.command, run.durable) && Complete(run.durable, run.command)
    ensures finish.Finished? && finish.result.status == Succeeded <==> Recorded(run.command, old(run.At()))
  {
    hide WriteAhead, ValidReceipt, Runnable, KnownScript, KnownSessionCodes, Honest, ValidResult, DeliverableResult,
         PerformCourse, PerformStored, ForeignPerform, Rest, NextAnswer, Complete, ErrorDetail, FirstSessionFailure,
         Sent, Repeats, HonestRow, ReceiptSize, StageHistory, Summarizes, Evidence, HandleOf;
    var err := Perform(run);
    var read := run.Ask();
    if read.fails {
      return StorageFailed;
    }
    if KnownScript(old(run.script)) { ClassificationIsHonest(run.command, run.trace, err); }
    if Complete(run.durable, run.command) { CompleteSucceeds(run.command, run.trace, err); }
    return Finished(Classify(run.command.id, run.durable, err, run.command));
  }

  /** node.lifecycleMutation.  Whatever the script answers (lost replies, cancellation, session
      replacement, refused or unacknowledged storage): the journal tells the truth at every point,
      it refuses a receipt exactly when the answers lead to a pane of another provider, and the
      result is then indeterminate; a result, when there is one, passes both result checks, repeats
      the journal row and is honest about what was sent.  It is a success exactly if every answer up
      to the last outcome is the one that is asked for; a stopped pane and its terminal are then no
      longer listed.  When nothing goes wrong the command succeeds. */
  method LifecycleMutation(c: Command, node: string, setting: Setting, script: seq<Answer>)
    returns (finish: Finish, row: Option<Receipt>, ghost trace: seq<Event>, ghost refused: bool)
    requires ValidCommand(c, node) && IsLifecycle(c.body)
    ensures WriteAhead(trace, c) && row == Durable(trace)
    ensures refused <==> ForeignCourse(c, setting, script)
    ensures refused ==> LeftOpen(row, trace) && (finish.Finished? ==> finish.result.status == Indeterminate)
    ensures finish.Finished? ==> finish.result.receipt == row
    ensures KnownSetting(setting) && KnownScript(script) ==> Faithful(finish, trace, c)
    ensures Undisturbed(c, setting, script) ==> finish == Success(c, row) && Complete(row, c)
    ensures finish.Finished? && finish.result.status == Succeeded <==> Accomplished(c, setting, script)
    ensures c.body.StopBody? && finish.Finished? && finish.result.status == Succeeded ==>
              && |script| > 17 && script[17].panes.Some?
              && forall v | v in script[17].panes.value ::
                   v.pane != c.body.stop.target.pane && v.terminal != c.body.stop.target.terminal
    // Refused before the first checkpoint, with nothing recorded or sent, and for what reason.
    ensures !setting.ready ==>
              finish == Finished(Result(c.id, Rejected, PreconditionFailed, None)) && trace == []
    ensures setting.ready && setting.session.Unresolved? ==>
              finish == Finished(Result(c.id, Rejected, ErrorDetail(setting.session.err), None)) && trace == []
    ensures setting.ready && setting.session.Resolved? && !Incarnation(setting.session.incarnation) ==>
              finish == Finished(Result(c.id, Rejected, SessionUnavailable, None)) && trace == []
    ensures setting.ready && setting.session.Resolved? && Incarnation(setting.session.incarnation)
            && BodySession(c.body).1 !in {"", setting.session.incarnation} ==>
              finish == Finished(Result(c.id, Rejected, SessionReplaced, None)) && trace == []
    ensures setting.ready && setting.session.Resolved? && Incarnation(setting.session.incarnation)
            && BodySession(c.body).1 in {"", setting.session.incarnation} && c.body.StartBody? && !setting.bound ==>
              finish == Finished(Result(c.id, Rejected, ProjectNotAuthorized, None)) && trace == []
  {
    ReplacedSessionDetail();
    hide WriteAhead, ValidReceipt, ValidResult, DeliverableResult, ValidCommand, Runnable, KnownSessionCodes,
         KnownScript, ErrorDetail, Honest, WireReceipt, PerformCourse, PerformStored, ForeignPerform, Rest, NextAnswer,
         StopAnswers, Recorded, Accomplished;
    AccomplishmentIsSpelledOut(c, node, setting, script);
    if c.body.StopBody? && Accomplished(c, setting, script) { StoppedPaneIsGone(c.body.stop, script, 2); }
    row, trace, refused := None, [], false;
    EmptyTraceIsWriteAhead(c);
    if !setting.ready {
      RefusalIsHonest(c, PreconditionFailed);
      return Finished(Refusal(c, PreconditionFailed)), row, trace, refused;
    }
    var (name, expected) := BodySession(c.body);
    var session := ResolveSession(expected, setting.session);
    if session.Unresolved? {
      if KnownSetting(setting) {
        ResolutionIsKnown(expected, setting);
        SessionDetailIsKnown(session.err);
        RefusalIsHonest(c, ErrorDetail(session.err));
      }
      return Finished(Refusal(c, ErrorDetail(session.err))), row, trace, refused;
    }
    if c.body.StartBody? && !setting.bound {
      RefusalIsHonest(c, ProjectNotAuthorized);
      return Finished(Refusal(c, ProjectNotAuthorized)), row, trace, refused;
    }
    ValidCommandIsRunnable(c, node, name, session.incarnation);
    var run := new LifecycleRun(c, name, session.incarnation, script);
    var started;
    started, finish := Checkpoint(run);
    if started {
      finish := Conduct(run);
    }
    row, trace, refused := run.durable, run.trace, run.refused;
  }
}
