/** Which of the failures joined in an error a lifecycle result reports. */
module Failures {
  import opened Messages
  import opened Outcomes

  // How much a failure tells, the most telling first.
  function Rank(s: Sentinel): nat {
    match s
    case UnresolvedTarget => 0
    case Persistence => 1
    case SessionFailure(_) => 2
    case BlockedAgent => 3
    case BusyAgent => 4
    case ChangedTarget => 5
    case UnsupportedOperation => 6
    case UnavailableAgent => 7
    case Deadline | Canceled => 8
    case _ => 9
  }

  // What a failure is reported as when nothing more telling came with it.
  function Reported(s: Sentinel): Detail {
    match s
    case UnresolvedTarget => LifecycleUnresolved
    case Persistence => PersistenceFailed
    case SessionFailure(code) => code
    case BlockedAgent => AgentBlocked
    case BusyAgent => AgentBusy
    case ChangedTarget => TargetChanged
    case UnsupportedOperation => Unsupported
    case UnavailableAgent => HerdrUnavailable
    case Deadline | Canceled => DeadlineExpired
    case _ => PreconditionFailed
  }

  // The first of the most telling failures.
  predicate Decides(err: Errors, i: nat) {
    && i < |err|
    && (forall j | 0 <= j < |err| :: Rank(err[i]) <= Rank(err[j]))
    && (forall j | 0 <= j < i :: Rank(err[i]) < Rank(err[j]))
  }

  function Deciding(err: Errors): (i: nat)
    requires err != []
    ensures Decides(err, i)
  {
    if |err| == 1 then 0
    else
      assert forall j | 0 <= j < |err| - 1 :: err[1..][j] == err[j + 1];
      var later := Deciding(err[1..]);
      assert forall j | 0 < j < |err| :: err[j] == err[1..][j - 1];
      if Rank(err[0]) <= Rank(err[later + 1]) then 0 else later + 1
  }

  lemma {:induction false} FirstSessionFailureIsFirst(err: Errors, i: nat)
    requires i < |err| && err[i].SessionFailure? && (forall j | 0 <= j < i :: !err[j].SessionFailure?)
    ensures FirstSessionFailure(err) == Some(err[i].code)
  {
    if i > 0 {
      assert forall j | 0 <= j < |err| - 1 :: err[1..][j] == err[j + 1];
      FirstSessionFailureIsFirst(err[1..], i - 1);
    }
  }

  lemma {:induction false} NoSessionFailure(err: Errors)
    requires forall j | 0 <= j < |err| :: !err[j].SessionFailure?
    ensures FirstSessionFailure(err).None?
  {
    if err != [] {
      assert forall j | 0 <= j < |err| - 1 :: err[1..][j] == err[j + 1];
      NoSessionFailure(err[1..]);
    }
  }

  /** The detail of a failed run is that of the first among its most telling failures, wherever it was
      joined in; a run without a failure has none to report. */
  lemma MostTellingFailure(err: Errors, i: nat)
    requires Decides(err, i)
    ensures ErrorDetail(err) == Reported(err[i])
  {
    hide FirstSessionFailure;
    if err[i].SessionFailure? {
      FirstSessionFailureIsFirst(err, i);
    } else if Rank(err[i]) > 2 {
      NoSessionFailure(err);
    }
    assert err[i] in err;
  }

  /** Joining failures: the more telling side is reported, and the side that came first when both
      tell as much. */
  lemma JoinedFailures(a: Errors, b: Errors)
    requires a != [] && b != []
    ensures ErrorDetail(a + b) ==
            if Rank(b[Deciding(b)]) < Rank(a[Deciding(a)]) then ErrorDetail(b) else ErrorDetail(a)
  {
    hide ErrorDetail, Deciding;
    var i, j := Deciding(a), Deciding(b);
    MostTellingFailure(a, i);
    MostTellingFailure(b, j);
    var k := if Rank(b[j]) < Rank(a[i]) then |a| + j else i;
    assert Decides(a + b, k);
    MostTellingFailure(a + b, k);
  }
}
