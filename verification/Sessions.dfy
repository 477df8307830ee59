/** The node's manager of headless Herdr sessions: one native start per name at a time.

    Everything between taking and releasing the gate is atomic for the other operations, so a run is
    any interleaving of such regions.  Whenever the gate is free, other callers may come first: what
    they do then is `crowd`, an arbitrary list of lists of their regions.  Native processes may exit
    at any point, also inside a region.
 */
module Sessions {
  import opened Messages

  const MaxSessions := 64

  // A native server process this manager started.
  datatype Process = Process(name: string, exited: bool)

  // What one status query brings: it fails, is malformed, or reports the server.
  datatype Native = QueryFailed | Malformed | NotRunning | Incompatible | NoIdentity | Running(incarnation: string)

  datatype Failure =
    | NoManager | InvalidResponse | BadProtocol | Identity | Capacity
    | Starting | StartFailed | Canceled | InvalidName

  datatype Status = NotKnown | Stopped | StartPending | Ready(incarnation: string)

  // The outcome of an operation on one session.
  datatype Reply = Reply(status: Status, failure: Option<Failure>)

  // One answer of the environment: the processes that have exited by now, whether the caller gave
  // up, and what the native query brings.
  datatype Answer = Answer(exits: set<nat>, canceled: bool, native: Native, sessions: Option<seq<string>>,
                           started: bool)

  const Silence := Answer({}, true, QueryFailed, None, false)

  // What another caller does under the gate: the locked part of Ensure, of Status or of List.
  datatype Region = EnsureRegion(name: string) | StatusRegion(name: string) | ListRegion

  function First(script: seq<Answer>): Answer {
    if script == [] then Silence else script[0]
  }

  function Tail(script: seq<Answer>): seq<Answer> {
    if script == [] then [] else script[1..]
  }

  // The gate is free and the caller stays until it has it.
  predicate Enters(script: seq<Answer>) {
    !First(script).canceled && !First(Tail(script)).canceled
  }

  // What a native query means, depending on whether a start of the session is pending.
  function Meaning(native: Native, pending: bool): Reply {
    match native
    case QueryFailed => Reply(NotKnown, Some(NoManager))
    case Malformed => Reply(NotKnown, Some(InvalidResponse))
    case Incompatible => Reply(NotKnown, Some(BadProtocol))
    case NoIdentity => Reply(NotKnown, Some(Identity))
    case NotRunning => Reply(if pending then StartPending else Stopped, None)
    case Running(incarnation) => Reply(Ready(incarnation), None)
  }

  /** Every kind of answer has its own code, and a server that does not run is no failure: it is
      starting exactly while a start of the name is remembered. */
  lemma EachAnswerHasItsCode(native: Native, pending: bool)
    ensures var r := Meaning(native, pending);
            && (r.failure == Some(NoManager) <==> native.QueryFailed?)
            && (r.failure == Some(InvalidResponse) <==> native.Malformed?)
            && (r.failure == Some(BadProtocol) <==> native.Incompatible?)
            && (r.failure == Some(Identity) <==> native.NoIdentity?)
            && (r.failure.None? <==> native.NotRunning? || native.Running?)
            && (r.status.Ready? <==> native.Running?)
            && (native.Running? ==> r.status.incarnation == native.incarnation)
            && (r.status.StartPending? <==> native.NotRunning? && pending)
            && (r.status.Stopped? <==> native.NotRunning? && !pending)
  {
  }

  // The server is found running.
  predicate FoundRunning(script: seq<Answer>) {
    Enters(script) && First(Tail(Tail(script))).native.Running?
  }

  // No session is reported, and the native start succeeds.
  predicate Starts(script: seq<Answer>) {
    First(script).sessions == Some([]) && !First(Tail(script)).canceled && First(Tail(script)).started
  }

  predicate LockedStart(script: seq<Answer>) {
    First(script).native.NotRunning? && Starts(Tail(script))
  }

  // Such a start, after which the first look at the server finds it running.
  predicate StartsCleanly(script: seq<Answer>) {
    var entered := Tail(Tail(script));
    Enters(script) && LockedStart(entered) && FoundRunning(Tail(Tail(Tail(entered))))
  }

  // The reported sessions, and every start that is still pending; nothing else but starts that were
  // pending when the list began.
  predicate ListsAll(names: set<string>, reported: seq<string>, before: set<string>, pending: set<string>) {
    && (forall n | n in reported :: n in names) && pending <= names
    && forall n | n in names :: n in reported || n in before
  }

  class Manager {
    // the pending start of each name
    var starting: map<string, nat>
    var processes: map<nat, Process>
    var gate: bool
    var script: seq<Answer>
    // what others do whenever the gate is free
    var crowd: seq<seq<Region>>
    // processes that others started
    ghost var foreign: set<nat>
    // processes whose session was observed ready after they were started
    ghost var observed: set<nat>
    // the next process
    var next: nat
    ghost var acquired: nat
    ghost var released: nat

    constructor (script: seq<Answer>, crowd: seq<seq<Region>>)
      ensures Valid() && !gate && processes == map[] && this.script == script && this.crowd == crowd && acquired == 0
    {
      starting, processes, gate, this.script, this.crowd, foreign := map[], map[], false, script, crowd, {};
      observed, acquired, released, next := {}, 0, 0, 0;
    }

    ghost predicate Valid()
      reads this
    {
      && acquired == released + (if gate then 1 else 0)
      && Tracked(starting, processes, observed) && (forall k | k in processes :: k < next)
      && Exclusive(processes, observed) && foreign <= processes.Keys
    }

    // No earlier start of the name is still pending: each has exited or was since observed ready.
    ghost predicate NonePending(name: string)
      reads this`processes, this`observed
    {
      forall k | k in processes && processes[k].name == name :: processes[k].exited || k in observed
    }

    // Time passes: some processes have exited.
    method Ask() returns (a: Answer)
      requires Valid()
      modifies this`script, this`processes
      ensures Valid() && Later(old(processes), processes) && processes.Keys == old(processes).Keys
      ensures |script| <= |old(script)| && (old(script) != [] ==> |script| < |old(script)|)
      ensures a == First(old(script)) && script == Tail(old(script))
      ensures processes == Exited(old(processes), a.exits)
    {
      a, script := First(script), Tail(script);
      ExitsAreLater(starting, processes, observed, a.exits);
      StaysExclusive(processes, Exited(processes, a.exits), observed, observed);
      processes := Exited(processes, a.exits);
    }

    // Time passes before the next answer: what it reports as exited may have exited already.
    method Elapse()
      requires Valid()
      modifies this`processes
      ensures Valid() && Later(old(processes), processes) && processes.Keys == old(processes).Keys
    {
      ExitsAreLater(starting, processes, observed, First(script).exits);
      StaysExclusive(processes, Exited(processes, First(script).exits), observed, observed);
      processes := Exited(processes, First(script).exits);
    }

    // The other callers' next turn.
    method Others()
      requires Valid() && !gate
      modifies this
      ensures Valid() && !gate && Later(old(processes), processes) && |script| <= |old(script)|
      ensures Added(old(processes).Keys, old(foreign), processes.Keys, foreign, {}) && old(next) <= next
      ensures old(crowd) == [] ==> Undisturbed()
    {
      hide Tracked, Later, Exclusive, Exited, Tail, First, Added;
      LaterReflexive(processes);
      NothingAdded(processes.Keys, foreign);
      if crowd == [] {
        return;
      }
      var regions := crowd[0];
      crowd := crowd[1..];
      for i := 0 to |regions|
        invariant Valid() && !gate && Later(old(processes), processes) && |script| <= |old(script)|
        invariant Added(old(processes).Keys, old(foreign), processes.Keys, foreign, {}) && old(next) <= next
      {
        ghost var before, others := processes, foreign;
        Visit(regions[i]);
        LaterTransitive(old(processes), before, processes);
        AddedTwice(old(processes).Keys, old(foreign), before.Keys, others, {}, processes.Keys, foreign, {});
      }
    }

    // One region of another caller.
    method Visit(region: Region)
      requires Valid() && !gate
      modifies this`script, this`processes, this`starting, this`observed, this`next, this`gate, this`acquired,
               this`released, this`foreign
      ensures Valid() && !gate && Later(old(processes), processes) && |script| <= |old(script)|
      ensures Added(old(processes).Keys, old(foreign), processes.Keys, foreign, {}) && old(next) <= next
    {
      hide Tracked, Later, Exclusive, Exited, Tail, First, Added;
      gate, acquired := true, acquired + 1;
      NothingAdded(processes.Keys, foreign);
      match region {
        case EnsureRegion(name) =>
          var r, started := StartLocked(name);
          if started {
            AddedForeign(old(processes).Keys, foreign, starting[name]);
            foreign := foreign + {starting[name]};
          }
        case StatusRegion(name) =>
          var r := StatusLocked(name);
        case ListRegion =>
          var names, failure := ListLocked();
      }
      Unlock();
    }

    // Nobody else did anything.
    twostate predicate Undisturbed()
      reads this
    {
      && script == old(script) && processes == old(processes) && starting == old(starting) && next == old(next)
      && observed == old(observed) && foreign == old(foreign) && crowd == [] && acquired == old(acquired)
    }

    // Manager.lock: others come first; then the gate is taken, and given back at once if the caller
    // has gone.
    method Lock() returns (ok: bool)
      requires Valid() && !gate
      modifies this
      ensures Valid() && ok == gate && Later(old(processes), processes)
      ensures Added(old(processes).Keys, old(foreign), processes.Keys, foreign, {})
      ensures |script| <= |old(script)| && old(next) <= next
      ensures old(crowd) == [] ==>
                && crowd == [] && processes.Keys == old(processes).Keys
                && starting == old(starting) && next == old(next)
                && foreign == old(foreign) && (acquired == old(acquired) || acquired == old(acquired) + 1)
                && (ok <==> Enters(old(script))) && (ok ==> script == Tail(Tail(old(script))))
    {
      hide Tracked, Later, Exclusive, Exited, Added;
      Others();
      ghost var before := processes;
      ok := Take();
      LaterTransitive(old(processes), before, processes);
    }

    method Take() returns (ok: bool)
      requires Valid() && !gate
      modifies this`script, this`processes, this`gate, this`acquired, this`released
      ensures Valid() && ok == gate && Later(old(processes), processes) && processes.Keys == old(processes).Keys
      ensures |script| <= |old(script)|
      ensures acquired == old(acquired) || acquired == old(acquired) + 1
      ensures ok <==> Enters(old(script))
      ensures ok ==> script == Tail(Tail(old(script)))
    {
      var waiting := Ask();
      if waiting.canceled {
        return false;
      }
      gate, acquired := true, acquired + 1;
      var a := Ask();
      ok := !a.canceled;
      if !ok {
        Unlock();
      }
    }

    // The gate is only ever given back by its holder.
    method Unlock()
      requires Valid() && gate
      modifies this`gate, this`released
      ensures Valid() && !gate && released == old(released) + 1
    {
      gate, released := false, released + 1;
    }

    // Manager.status, under the gate
    method StatusLocked(name: string) returns (r: Reply)
      requires Valid() && gate
      modifies this`script, this`processes, this`starting, this`observed
      ensures Valid() && gate && Later(old(processes), processes) && processes.Keys == old(processes).Keys
      ensures |script| <= |old(script)|
      ensures starting.Keys <= old(starting).Keys && old(observed) <= observed
      ensures forall n | n in starting :: starting[n] == old(starting)[n]
      ensures r == Meaning(First(old(script)).native, name in starting) && script == Tail(old(script))
      ensures r.status.Ready? ==> name !in starting
      ensures r.status == StartPending ==> name in starting && !processes[starting[name]].exited
    {
      var a := Ask();
      match a.native {
        case QueryFailed => return Reply(NotKnown, Some(NoManager));
        case Malformed => return Reply(NotKnown, Some(InvalidResponse));
        case Incompatible => return Reply(NotKnown, Some(BadProtocol));
        case NoIdentity => return Reply(NotKnown, Some(Identity));
        case NotRunning =>
          if name in starting {
            if !processes[starting[name]].exited {
              return Reply(StartPending, None);
            }
            ForgetExited(starting, processes, observed, name);
            starting := starting - {name};
          }
          return Reply(Stopped, None);
        case Running(incarnation) =>
          if name in starting {
            ForgetReady(starting, processes, observed, name);
            observed, starting := observed + {starting[name]}, starting - {name};
          }
          return Reply(Ready(incarnation), None);
      }
    }

    // The answer after the two that let a caller in.
    lemma ThirdAnswer(script: seq<Answer>)
      requires |script| > 2 && !script[0].canceled && !script[1].canceled
      ensures Enters(script) && |Tail(Tail(script))| > 0
      ensures Tail(Tail(script))[0] == script[2] && First(Tail(Tail(script))) == script[2]
    {
    }

    lemma FirstAnswer(script: seq<Answer>)
      ensures if script == [] then First(script).native.QueryFailed? else First(script) == script[0]
    {
    }

    // Manager.Status
    method Status(name: string) returns (r: Reply)
      requires Valid() && !gate
      modifies this
      ensures Valid() && !gate && |script| <= |old(script)| && Later(old(processes), processes)
      ensures Added(old(processes).Keys, old(foreign), processes.Keys, foreign, {}) && old(next) <= next
      ensures r.status.Ready? ==> r.failure.None?
      ensures old(crowd) == [] ==> crowd == [] && foreign == old(foreign)
      ensures SessionName(name) && FoundRunning(old(script)) && old(crowd) == [] ==>
                r == Reply(Ready(First(Tail(Tail(old(script)))).native.incarnation), None)
      ensures r.failure == Some(InvalidName) <==> !SessionName(name)
      // A caller that nobody disturbs learns what the third answer says, each failure by its code.
      ensures SessionName(name) && old(crowd) == [] && |old(script)| > 2
              && !old(script)[0].canceled && !old(script)[1].canceled ==>
                r == Meaning(old(script)[2].native, name in starting)
    {
      hide Tracked, Later, Exclusive, Exited, Added;
      LaterReflexive(processes);
      NothingAdded(processes.Keys, foreign);
      if !SessionName(name) {
        return Reply(NotKnown, Some(InvalidName));
      }
      var ok := Lock();
      if !ok {
        return Reply(NotKnown, Some(Canceled));
      }
      ghost var locked := processes;
      r := StatusLocked(name);
      LaterTransitive(old(processes), locked, processes);
      Unlock();
    }

    // Manager.list, under the gate: the reported sessions, then the pending starts among the rest.
    method ListLocked() returns (names: set<string>, failure: Option<Failure>)
      requires Valid() && gate
      modifies this`script, this`processes, this`starting, this`observed
      ensures Valid() && gate && Later(old(processes), processes) && processes.Keys == old(processes).Keys
      ensures |script| <= |old(script)|
      ensures starting.Keys <= old(starting).Keys && old(observed) <= observed
      ensures failure.None? ==> |names| <= MaxSessions && First(old(script)).sessions.Some?
      ensures failure.None? ==> ListsAll(names, First(old(script)).sessions.value, old(starting).Keys, starting.Keys)
      ensures old(starting) == map[] && First(old(script)).sessions == Some([]) ==>
                failure.None? && names == {} && script == Tail(old(script))
      ensures failure.Some? ==> failure.value in {NoManager, InvalidResponse, Capacity, Canceled}
      ensures |old(script)| > 0 ==> (failure == Some(NoManager) <==> old(script)[0].sessions.None?)
    {
      hide SessionName, Tracked, Later, Exited, Tail;
      var a := Ask();
      if a.sessions.None? {
        return {}, Some(NoManager);
      }
      if |a.sessions.value| > MaxSessions {
        return {}, Some(Capacity);
      }
      ghost var first := processes;
      names, failure := ListReported(a.sessions.value);
      LaterTransitive(old(processes), first, processes);
      if failure.Some? {
        return;
      }
      ghost var second := processes;
      names, failure := ListPending(names);
      LaterTransitive(old(processes), second, processes);
    }

    method ListReported(reported: seq<string>) returns (names: set<string>, failure: Option<Failure>)
      requires Valid() && gate
      modifies this`script, this`processes, this`starting, this`observed
      ensures Valid() && gate && Later(old(processes), processes) && processes.Keys == old(processes).Keys
      ensures |script| <= |old(script)|
      ensures starting.Keys <= old(starting).Keys && old(observed) <= observed
      ensures failure.None? ==> |names| == |reported| && forall n :: n in names <==> n in reported
      ensures reported == [] ==> failure.None? && script == old(script)
      ensures failure.Some? ==> failure.value in {InvalidResponse, Canceled}
    {
      hide SessionName, Tracked, Later, Exited;
      LaterReflexive(processes);
      names, failure := {}, None;
      for i := 0 to |reported|
        invariant Valid() && gate && Later(old(processes), processes) && processes.Keys == old(processes).Keys
        invariant |script| <= |old(script)|
        invariant starting.Keys <= old(starting).Keys && old(observed) <= observed
        invariant |names| == i && (i == 0 ==> script == old(script))
        invariant forall n :: n in names <==> n in reported[..i]
      {
        if !SessionName(reported[i]) || reported[i] in names {
          return names, Some(InvalidResponse);
        }
        ghost var between := processes;
        failure := Look(reported[i]);
        LaterTransitive(old(processes), between, processes);
        if failure.Some? {
          return;
        }
        names := names + {reported[i]};
      }
      assert reported[..|reported|] == reported;
      failure := None;
    }

    method ListPending(reported: set<string>) returns (names: set<string>, failure: Option<Failure>)
      requires Valid() && gate && |reported| <= MaxSessions
      modifies this`script, this`processes, this`starting, this`observed
      ensures Valid() && gate && Later(old(processes), processes) && processes.Keys == old(processes).Keys
      ensures |script| <= |old(script)|
      ensures starting.Keys <= old(starting).Keys && old(observed) <= observed
      ensures failure.None? ==> |names| <= MaxSessions
      ensures failure.None? ==> starting.Keys <= names && reported <= names <= reported + old(starting).Keys
      ensures old(starting) == map[] ==> failure.None? && names == reported && script == old(script)
      ensures failure.Some? ==> failure.value in {Capacity, Canceled}
    {
      hide SessionName, Tracked, Later, Exited;
      LaterReflexive(processes);
      names, failure := reported, None;
      var left := starting.Keys - names;
      while left != {}
        invariant Valid() && gate && Later(old(processes), processes) && processes.Keys == old(processes).Keys
        invariant |script| <= |old(script)|
        invariant starting.Keys <= old(starting).Keys && old(observed) <= observed
        invariant |names| <= MaxSessions && left !! names && failure.None?
        invariant starting.Keys - left <= names && reported <= names <= reported + old(starting).Keys
        invariant left <= old(starting).Keys
        invariant old(starting) == map[] ==> left == {} && names == reported && script == old(script)
        decreases |left|
      {
        var name :| name in left;
        left := left - {name};
        // a start that an earlier query resolved is no longer visited
        if name in starting {
          if |names| >= MaxSessions {
            return names, Some(Capacity);
          }
          ghost var between := processes;
          failure := Look(name);
          LaterTransitive(old(processes), between, processes);
          if failure.Some? {
            return;
          }
          names := names + {name};
        }
      }
    }

    // One entry of the list; only the caller's own cancellation ends it.
    method Look(name: string) returns (failure: Option<Failure>)
      requires Valid() && gate
      modifies this`script, this`processes, this`starting, this`observed
      ensures Valid() && gate && Later(old(processes), processes) && processes.Keys == old(processes).Keys
      ensures |script| <= |old(script)|
      ensures starting.Keys <= old(starting).Keys && old(observed) <= observed
      ensures failure in {None, Some(Canceled)}
    {
      var r := StatusLocked(name);
      ghost var between := processes;
      var a := Ask();
      LaterTransitive(old(processes), between, processes);
      failure := if a.canceled then Some(Canceled) else None;
    }

    // Manager.List
    method List() returns (names: set<string>, failure: Option<Failure>)
      requires Valid() && !gate
      modifies this
      ensures Valid() && !gate && Later(old(processes), processes)
      ensures Added(old(processes).Keys, old(foreign), processes.Keys, foreign, {})
      ensures failure.None? ==> |names| <= MaxSessions
    {
      var ok := Lock();
      if !ok {
        return {}, Some(Canceled);
      }
      ghost var between := processes;
      names, failure := ListLocked();
      LaterTransitive(old(processes), between, processes);
      Unlock();
    }

    // Every other start of the name has exited or was observed ready since.
    ghost predicate NoneElsePending(name: string, mine: nat)
      reads this`processes, this`observed
    {
      forall k | k in processes && processes[k].name == name && k != mine :: processes[k].exited || k in observed
    }

    // The native start: no earlier start of the name may still be pending.
    method StartNative(name: string)
      requires Valid() && gate && NonePending(name)
      modifies this`processes, this`starting, this`next
      ensures Valid() && gate && Later(old(processes), processes)
      ensures starting == old(starting)[name := old(next)] && next == old(next) + 1
      ensures processes == old(processes)[old(next) := Process(name, false)]
      ensures old(next) !in old(processes)
      ensures NoneElsePending(name, old(next))
    {
      processes := processes[next := Process(name, false)];
      starting, next := starting[name := next], next + 1;
    }

    // The end of the locked part: there is room for the session, and it is started.
    method StartNew(name: string, status: Status) returns (r: Reply, started: bool)
      requires Valid() && gate && name !in starting
      modifies this`script, this`processes, this`starting, this`observed, this`next
      ensures Valid() && gate && |script| <= |old(script)| && Later(old(processes), processes)
      ensures started ==> name in starting && starting[name] == old(next) && starting[name] !in old(processes)
      ensures started ==> NoneElsePending(name, starting[name]) && old(next) < next
      ensures old(next) <= next
      ensures !started ==> r.failure.Some? && starting.Keys <= old(starting).Keys
      ensures r.status == status && (started <==> r.failure.None?)
      ensures r.failure.Some? ==> r.failure.value in {NoManager, InvalidResponse, Capacity, Canceled, StartFailed}
      ensures processes.Keys == if started then old(processes).Keys + {starting[name]} else old(processes).Keys
      ensures old(starting) == map[] && Starts(old(script)) ==> started && script == Tail(Tail(old(script)))
    {
      hide Tracked, Later, Exited, Exclusive, Tail, First, ListsAll, NoneElsePending;
      started := false;
      var names, failure := ListLocked();
      ghost var listed := processes;
      if failure.Some? {
        return Reply(status, failure), false;
      }
      if name !in names && |names| >= MaxSessions {
        return Reply(status, Some(Capacity)), false;
      }
      var a := Ask();
      LaterTransitive(old(processes), listed, processes);
      if a.canceled {
        return Reply(status, Some(Canceled)), false;
      }
      if !a.started {
        return Reply(status, Some(StartFailed)), false;
      }
      ghost var asked := processes;
      NoneTracked(starting, processes, observed, name);
      StartNative(name);
      LaterTransitive(old(processes), asked, processes);
      r, started := Reply(status, None), true;
    }

    // The locked part of Ensure: at most one native start, and only if none is pending.
    method StartLocked(name: string) returns (r: Reply, started: bool)
      requires Valid() && gate
      modifies this`script, this`processes, this`starting, this`observed, this`next
      ensures Valid() && gate && |script| <= |old(script)| && Later(old(processes), processes)
      ensures started ==> name in starting && starting[name] !in old(processes) && starting[name] == old(next)
      ensures started ==> NoneElsePending(name, starting[name])
      ensures old(next) <= next
      ensures !started ==> r.failure.Some? || r.status.Ready?
      ensures processes.Keys == if started then old(processes).Keys + {starting[name]} else old(processes).Keys
      ensures First(old(script)).native.Running? ==>
                !started && r == Reply(Ready(First(old(script)).native.incarnation), None)
      ensures old(starting) == map[] && LockedStart(old(script)) ==>
                started && script == Tail(Tail(Tail(old(script)))) && starting[name] == old(next)
      ensures started ==> r.failure.None? && old(script) != []
      // A start that is pending is refused as such, and nothing else is.
      ensures r.failure == Some(Starting) ==> name in starting && !processes[starting[name]].exited
      ensures |old(script)| > 0 && old(script)[0].native.NotRunning? ==>
                (r.failure == Some(Starting) <==> !started && name in starting)
      ensures |old(script)| > 0 && !old(script)[0].native.NotRunning? ==>
                !started && r == Meaning(old(script)[0].native, false)
    {
      hide Tracked, Later, Exited, Exclusive, Tail, First, Starts;
      FirstAnswer(script);
      r := StatusLocked(name);
      started := false;
      if r.failure.Some? || r.status.Ready? {
        return;
      }
      ghost var seen := processes;
      Elapse();
      LaterTransitive(old(processes), seen, processes);
      if name in starting {
        TrackedStart(starting, processes, observed, name);
        if !processes[starting[name]].exited {
          return Reply(r.status, Some(Starting)), false;
        }
        ForgetExited(starting, processes, observed, name);
        starting := starting - {name};
      }
      ghost var looked := processes;
      r, started := StartNew(name, r.status);
      LaterTransitive(old(processes), looked, processes);
    }

    /** Ensure: whatever other callers do whenever the gate is free, this call starts at most one native
        process, and only when every earlier one of the name has exited or was observed ready since;
        the gate is given back exactly once before the wait. */
    method Ensure(name: string) returns (r: Reply, ghost mine: Option<nat>)
      requires Valid() && !gate
      modifies this
      ensures Valid() && !gate && Later(old(processes), processes)
      ensures Added(old(processes).Keys, old(foreign), processes.Keys, foreign, if mine.Some? then {mine.value} else {})
      ensures mine.Some? ==>
                && mine.value !in old(processes) && mine.value in processes && processes[mine.value].name == name
                && forall k | k in processes && processes[k].name == name && k < mine.value ::
                     processes[k].exited || k in observed
      ensures r.failure.None? ==> r.status.Ready?
      ensures SessionName(name) && FoundRunning(old(script)) && old(crowd) == [] ==> r.failure.None? && mine.None?
      ensures SessionName(name) && old(starting) == map[] && StartsCleanly(old(script)) && old(crowd) == [] ==>
                r.failure.None? && mine == Some(old(next))
      ensures !SessionName(name) ==> r.failure == Some(InvalidName)
      // Nothing is started unless the server is known not to run, and why not is reported.
      ensures SessionName(name) && old(crowd) == [] && |old(script)| > 2
              && !old(script)[0].canceled && !old(script)[1].canceled ==>
                var native := old(script)[2].native;
                !native.NotRunning? ==> mine.None? && r == Meaning(native, false)
    {
      hide Tracked, Later, SessionName, Enters, LockedStart, Exited, Tail, First, Exclusive, Added;
      LaterReflexive(processes);
      NothingAdded(processes.Keys, foreign);
      mine := None;
      if !SessionName(name) {
        return Reply(NotKnown, Some(InvalidName)), None;
      }
      ghost var answers := script;
      if |answers| > 2 && !answers[0].canceled && !answers[1].canceled { ThirdAnswer(answers); }
      var ok := Lock();
      if !ok {
        return Reply(NotKnown, Some(Canceled)), None;
      }
      ghost var first := processes;
      var started;
      r, started := StartLocked(name);
      LaterTransitive(old(processes), first, processes);
      if !started {
        Unlock();
        return;
      }
      var k := starting[name];
      mine := Some(k);
      TrackedStart(starting, processes, observed, name);
      LaterHas(old(processes), first, next);
      AddedMine(old(processes).Keys, old(foreign), first.Keys, foreign, k);
      Unlock();
      ghost var second, others := processes, foreign;
      r := Wait(name, k);
      AddedTwice(old(processes).Keys, old(foreign), second.Keys, others, {k}, processes.Keys, foreign, {});
      LaterTransitive(old(processes), second, processes);
      LaterNames(second, processes, k);
      EarlierAreDone(processes, observed, k);
    }

    // The wait for a start: it must not hold the gate, so others come and go.
    method Wait(name: string, k: nat) returns (r: Reply)
      requires Valid() && !gate && k in processes
      modifies this
      ensures Valid() && !gate && Later(old(processes), processes)
      ensures Added(old(processes).Keys, old(foreign), processes.Keys, foreign, {})
      ensures r.failure.None? ==> r.status.Ready?
      ensures SessionName(name) && FoundRunning(old(script)) && old(crowd) == [] ==> r.failure.None?
    {
      hide Tracked, Later, SessionName, FoundRunning, Exited, Tail, Exclusive, Added;
      LaterReflexive(processes);
      NothingAdded(processes.Keys, foreign);
      while true
        invariant Valid() && !gate && Later(old(processes), processes)
        invariant Added(old(processes).Keys, old(foreign), processes.Keys, foreign, {})
        invariant k in processes && |script| <= |old(script)|
        invariant SessionName(name) && FoundRunning(old(script)) && old(crowd) == [] ==>
                script == old(script) && crowd == []
        decreases |script|
      {
        ghost var a, fa := processes, foreign;
        r := Status(name);
        LaterTransitive(old(processes), a, processes);
        LaterNames(a, processes, k);
        AddedTwice(old(processes).Keys, old(foreign), a.Keys, fa, {}, processes.Keys, foreign, {});
        if r.status.Ready? || r.failure == Some(BadProtocol) {
          return;
        }
        ghost var b := processes;
        var wait := Ask();
        LaterTransitive(old(processes), b, processes);
        if wait.canceled {
          return Reply(StartPending, Some(Starting));
        }
        if processes[k].exited {
          ghost var c, fc := processes, foreign;
          r := Status(name);
          LaterTransitive(old(processes), c, processes);
          AddedTwice(old(processes).Keys, old(foreign), c.Keys, fc, {}, processes.Keys, foreign, {});
          if !r.status.Ready? {
            r := Reply(r.status, Some(StartFailed));
          }
          return;
        }
      }
    }

    /** Start exclusion: in every state of every interleaving, at most one start of a name is pending. */
    lemma OnePendingStart(a: nat, b: nat)
      requires Valid() && a in processes && b in processes && processes[a].name == processes[b].name
      requires !processes[a].exited && a !in observed && !processes[b].exited && b !in observed
      ensures a == b
    {
    }
  }

  // The processes that were added are others' ones, and these.
  predicate Added(was: set<nat>, others: set<nat>, processes: set<nat>, foreign: set<nat>, mine: set<nat>) {
    others <= foreign && processes == was + (foreign - others) + mine
  }

  lemma NothingAdded(processes: set<nat>, foreign: set<nat>)
    ensures Added(processes, foreign, processes, foreign, {})
  {
  }

  lemma AddedTwice(a: set<nat>, fa: set<nat>, b: set<nat>, fb: set<nat>, m: set<nat>, c: set<nat>, fc: set<nat>,
        n: set<nat>)
    requires Added(a, fa, b, fb, m) && Added(b, fb, c, fc, n)
    ensures Added(a, fa, c, fc, m + n)
    ensures m + {} == m && {} + n == n
  {
  }

  lemma AddedMine(a: set<nat>, fa: set<nat>, b: set<nat>, fb: set<nat>, k: nat)
    requires Added(a, fa, b, fb, {})
    ensures Added(a, fa, b + {k}, fb, {k})
  {
  }

  lemma AddedForeign(a: set<nat>, f: set<nat>, k: nat)
    requires k !in f
    ensures Added(a, f, a + {k}, f + {k}, {})
  {
  }

  // Whenever a later process of a name was started, every earlier one has exited or was observed
  // ready since.
  ghost predicate Exclusive(processes: map<nat, Process>, observed: set<nat>) {
    forall a, b | a in processes && b in processes && a < b && processes[a].name == processes[b].name ::
      processes[a].exited || a in observed
  }

  lemma StaysExclusive(a: map<nat, Process>, b: map<nat, Process>, before: set<nat>, observed: set<nat>)
    requires Exclusive(a, before) && Later(a, b) && b.Keys == a.Keys && before <= observed
    ensures Exclusive(b, observed)
  {
  }

  lemma EarlierAreDone(processes: map<nat, Process>, observed: set<nat>, k: nat)
    requires Exclusive(processes, observed) && k in processes
    ensures forall j | j in processes && processes[j].name == processes[k].name && j < k ::
            processes[j].exited || j in observed
  {
  }

  // Every pending process of a name is the one that is remembered for it.
  ghost predicate Tracked(starting: map<string, nat>, processes: map<nat, Process>, observed: set<nat>) {
    && (forall n | n in starting :: starting[n] in processes && processes[starting[n]].name == n)
    && (forall k | k in processes && !processes[k].exited && k !in observed ::
          processes[k].name in starting && starting[processes[k].name] == k)
  }

  function Exited(processes: map<nat, Process>, exits: set<nat>): map<nat, Process> {
    map k | k in processes :: if k in exits then processes[k].(exited := true) else processes[k]
  }

  // The same processes, some of which have exited since.
  ghost predicate Later(a: map<nat, Process>, b: map<nat, Process>) {
    forall k | k in a :: k in b && b[k].name == a[k].name && (a[k].exited ==> b[k].exited)
  }

  lemma LaterTransitive(a: map<nat, Process>, b: map<nat, Process>, c: map<nat, Process>)
    requires Later(a, b) && Later(b, c)
    ensures Later(a, c)
  {
  }

  lemma LaterReflexive(a: map<nat, Process>)
    ensures Later(a, a)
  {
  }

  lemma LaterHas(a: map<nat, Process>, b: map<nat, Process>, k: nat)
    requires Later(a, b)
    ensures a.Keys <= b.Keys
  {
  }

  lemma LaterNames(a: map<nat, Process>, b: map<nat, Process>, k: nat)
    requires Later(a, b) && k in a
    ensures k in b && b[k].name == a[k].name
  {
  }

  lemma TrackedStart(starting: map<string, nat>, processes: map<nat, Process>, observed: set<nat>, name: string)
    requires Tracked(starting, processes, observed) && name in starting
    ensures starting[name] in processes && processes[starting[name]].name == name
  {
  }

  // A name that nothing is remembered for has no pending start.
  lemma NoneTracked(starting: map<string, nat>, processes: map<nat, Process>, observed: set<nat>, name: string)
    requires Tracked(starting, processes, observed) && name !in starting
    ensures forall k | k in processes && processes[k].name == name :: processes[k].exited || k in observed
  {
  }

  lemma ExitsAreLater(starting: map<string, nat>, processes: map<nat, Process>, observed: set<nat>, exits: set<nat>)
    requires Tracked(starting, processes, observed)
    ensures Tracked(starting, Exited(processes, exits), observed) && Later(processes, Exited(processes, exits))
  {
  }

  lemma ForgetExited(starting: map<string, nat>, processes: map<nat, Process>, observed: set<nat>, name: string)
    requires Tracked(starting, processes, observed) && name in starting && processes[starting[name]].exited
    ensures Tracked(starting - {name}, processes, observed)
  {
  }

  lemma ForgetReady(starting: map<string, nat>, processes: map<nat, Process>, observed: set<nat>, name: string)
    requires Tracked(starting, processes, observed) && name in starting
    ensures Tracked(starting - {name}, processes, observed + {starting[name]})
  {
  }
}
