/** Destroying a managed installation: an interrupted run can be resumed until nothing is left, and
    local state is only erased once the remote removals are on record.
 */
module Teardown {
  import opened Messages

  // valid is the outcome of the configuration's own validation.
  datatype Config = Config(name: string, coordinator: bool, settings: string, valid: bool)

  datatype Identity = Identity(device: string, dnsName: string, tailnet: string)

  const NoIdentity := Identity("", "", "")

  datatype Destroy = Destroy(configuration: Config, identity: Identity, removePolicy: bool,
                             deviceRemoved: bool, policyRemoved: bool, localOnly: bool)

  // deviceIDPattern
  predicate DeviceId(s: string) {
    1 <= |s| <= 128 && forall i | 0 <= i < |s| :: Alphanumeric(s[i]) || s[i] in "_-"
  }

  // validateDestroyState
  predicate ValidDestroy(d: Destroy) {
    if d.localOnly then
      && d.configuration.valid && !d.configuration.coordinator
      && !d.removePolicy && !d.deviceRemoved && !d.policyRemoved
      && d.identity == NoIdentity
    else DeviceId(d.identity.device)
  }

  // Local state may be erased: every remote removal that was asked for is on record.
  predicate Cleared(d: Destroy) {
    d.localOnly || (d.deviceRemoved && (d.removePolicy ==> d.policyRemoved))
  }

  // Without a coordinator there is nothing to remove remotely, or it has been removed before.
  lemma NothingRemote(d: Destroy)
    requires !d.removePolicy && (d.localOnly || d.deviceRemoved)
    ensures Cleared(d)
  {
  }

  // The same teardown, further along.
  predicate Continues(a: Destroy, b: Destroy) {
    && b.configuration == a.configuration && b.identity == a.identity && b.removePolicy == a.removePolicy
    && b.localOnly == a.localOnly
    && (a.deviceRemoved ==> b.deviceRemoved) && (a.policyRemoved ==> b.policyRemoved)
  }

  lemma ContinuesItself(d: Destroy)
    ensures Continues(d, d)
  {
  }

  lemma ContinuesOn(a: Destroy, b: Destroy, c: Destroy)
    requires Continues(a, b) && Continues(b, c)
    ensures Continues(a, c)
  {
  }

  // How one effect ends: it works, fails, works but reports failure, or the process dies before or
  // after it.
  datatype Answer = Works | Fails | Hidden | Dies(after: bool)

  // The effect takes place.
  predicate Happens(a: Answer) {
    a.Works? || a.Hidden? || (a.Dies? && a.after)
  }

  // How the i-th effect to come ends; when nothing more is foreseen, it fails.
  function At(script: seq<Answer>, i: nat): Answer {
    if i < |script| then script[i] else Fails
  }

  function After(script: seq<Answer>, n: nat): seq<Answer> {
    if n <= |script| then script[n..] else []
  }

  // The next n effects work.
  predicate AllWork(script: seq<Answer>, n: nat) {
    forall i | 0 <= i < n :: At(script, i).Works?
  }

  lemma NextEffect(script: seq<Answer>, k: nat)
    ensures At(After(script, k), 0) == At(script, k) && After(After(script, k), 1) == After(script, k + 1)
  {
  }

  lemma NextEffects(script: seq<Answer>, k: nat, n: nat)
    ensures AllWork(script, k + n) ==> AllWork(script, k) && AllWork(After(script, k), n)
    ensures After(After(script, k), n) == After(script, k + n)
  {
    if AllWork(script, k + n) {
      forall i | 0 <= i < n ensures At(After(script, k), i).Works? {
        assert At(script, k + i).Works?;
      }
    }
  }

  lemma AfterNone(script: seq<Answer>)
    ensures After(script, 0) == script
  {
  }

  // The last of n effects is lost, and those before it work.
  predicate LastIsLost(script: seq<Answer>, n: nat) {
    n > 0 && AllWork(script, n - 1) && !Happens(At(script, n - 1))
  }

  lemma LostLater(script: seq<Answer>, k: nat, n: nat)
    requires n > 0
    ensures LastIsLost(script, k + n) ==> AllWork(script, k) && LastIsLost(After(script, k), n)
  {
    NextEffects(script, k, n - 1);
    assert At(After(script, k), n - 1) == At(script, k + n - 1);
  }

  // First a effects, then b, then what is left: all n work, or the last one is lost.
  lemma StagedEffects(script: seq<Answer>, a: nat, b: nat, n: nat)
    requires n > 0
    ensures After(After(script, a), b) == After(script, a + b)
    ensures AllWork(script, a + b + n) || LastIsLost(script, a + b + n) ==>
              && AllWork(script, a) && AllWork(After(script, a), b)
              && (a == 1 ==> At(script, 0).Works?) && (b == 1 ==> At(After(script, a), 0).Works?)
    ensures AllWork(script, a + b + n) ==> AllWork(After(script, a + b), n)
    ensures LastIsLost(script, a + b + n) ==> LastIsLost(After(script, a + b), n)
  {
    hide At, After;
    NextEffects(script, a, b);
    NextEffects(script, a, b + n);
    NextEffects(script, a + b, n);
    LostLater(script, a, b + n);
    LostLater(script, a + b, n);
    assert a + (b + n) == (a + b) + n;
  }

  datatype Options = Options(removePolicy: bool, dryRun: bool, confirmed: bool)

  datatype Outcome = Destroyed | Stopped

  class Installation {
    // the managed root: configuration, destroy record, other files, role locks, onboarding lock
    var root: bool
    var config: Option<Config>
    var record: Option<Destroy>
    var data: set<string>
    var locks: set<string>
    var onboarding: bool
    // the Tailscale device and the mesh entries of its tailnet policy
    var device: bool
    var policy: bool
    // how the effects to come will end
    var script: seq<Answer>
    // the configuration the installation was set up with
    ghost const original: Config
    // the files the installation had
    ghost const files: set<string>
    // erasing has begun
    ghost var purging: bool

    constructor (config: Config, data: set<string>, locks: set<string>, script: seq<Answer>)
      requires config.valid
      ensures Valid() && this.config == Some(config) && record.None? && this.data == data && this.script == script
      ensures this.locks == locks && !onboarding
      ensures original == config && files == data && !purging
    {
      root, this.config, record, this.data, this.locks, onboarding := true, Some(config), None, data, locks, false;
      device, policy, this.script := true, true, script;
      original, files, purging := config, data, false;
    }

    ghost predicate Valid()
      reads this
    {
      && original.valid
      && (config.Some? ==> config.value == original)
      && (record.Some? ==> ValidDestroy(record.value) && record.value.configuration == original)
      && (record.Some? && record.value.deviceRemoved ==> !device)
      && (record.Some? && record.value.policyRemoved ==> !policy)
      && (!purging ==> config.Some? && data == files && root)
      && (purging && record.Some? ==> Cleared(record.value) && root)
      && (purging && record.None? ==> Nothing())
      && (config.None? ==> purging && data == {})
    }

    // Nothing is left but, perhaps, the empty root directory.
    predicate Nothing()
      reads this
    {
      config.None? && record.None? && data == {} && locks == {}
    }

    // The record that a resumed run finds continues the one before.
    twostate predicate Resumes()
      reads this
    {
      && (old(purging) ==> purging)
      && (old(record).Some? ==> if record.Some? then Continues(old(record).value, record.value) else Nothing())
    }

    method Try() returns (a: Answer)
      modifies this`script
      ensures a == At(old(script), 0) && script == After(old(script), 1)
    {
      if script == [] {
        return Fails;
      }
      a, script := script[0], script[1..];
    }

    // LoadForCleanup: the configuration, or what the destroy record remembers of it.
    function Loaded(): (c: Option<Config>)
      reads this
    {
      if config.Some? then (if config.value.valid then config else None)
      else if record.Some? && record.value.configuration.valid then Some(record.value.configuration)
      else None
    }

    // SaveDestroyState: validated, and replaced as a whole.
    method SaveRecord(d: Destroy) returns (ok: bool, died: bool)
      requires Valid() && d.configuration == original && !(purging && record.None?)
      requires record.Some? ==> Continues(record.value, d)
      requires (d.deviceRemoved ==> !device) && (d.policyRemoved ==> !policy)
      requires purging ==> Cleared(d)
      modifies this`record, this`script
      ensures Valid() && Resumes()
      ensures ok ==> record == Some(d) && !died
      ensures !ok ==> record == old(record) || record == Some(d)
      ensures ValidDestroy(d) ==> ok == At(old(script), 0).Works? && script == After(old(script), 1)
    {
      if !ValidDestroy(d) {
        return false, false;
      }
      var a := Try();
      if Happens(a) {
        record := Some(d);
      }
      return a.Works?, a.Dies?;
    }

    // One remote or daemon step.
    method Effect() returns (done: bool, ok: bool, died: bool)
      modifies this`script
      ensures ok ==> done && !died
      ensures ok == At(old(script), 0).Works? && done == Happens(At(old(script), 0))
      ensures script == After(old(script), 1)
    {
      var a := Try();
      return Happens(a), a.Works?, a.Dies?;
    }

    // Removes files one by one; a failure leaves the rest.
    method RemoveFiles() returns (ok: bool, died: bool)
      requires Valid() && record.Some? && Cleared(record.value)
      modifies this`data, this`script, this`purging
      ensures Valid() && purging && (ok ==> data == {} && !died) && data <= old(data)
      ensures AllWork(old(script), |old(data)|) ==> ok && script == After(old(script), |old(data)|)
    {
      hide At, After;
      purging := true;
      AfterNone(script);
      while data != {}
        invariant Valid() && purging && record.Some? && data <= old(data) && |data| <= |old(data)|
        invariant script == After(old(script), |old(data)| - |data|)
        decreases |data|
      {
        var f :| f in data;
        assert |data - {f}| == |data| - 1;
        NextEffect(old(script), |old(data)| - |data|);
        var done;
        done, ok, died := Effect();
        if done { data := data - {f}; }
        if !ok {
          return;
        }
      }
      ok, died := true, false;
    }

    method RemoveLocks() returns (ok: bool, died: bool)
      requires Valid() && purging && record.Some?
      modifies this`locks, this`script
      ensures Valid() && (ok ==> locks == {} && !died)
      ensures AllWork(old(script), |old(locks)|) ==> ok && script == After(old(script), |old(locks)|)
    {
      hide At, After;
      AfterNone(script);
      while locks != {}
        invariant Valid() && purging && record.Some? && |locks| <= |old(locks)|
        invariant script == After(old(script), |old(locks)| - |locks|)
        decreases |locks|
      {
        var f :| f in locks;
        assert |locks - {f}| == |locks| - 1;
        NextEffect(old(script), |old(locks)| - |locks|);
        var done;
        done, ok, died := Effect();
        if done { locks := locks - {f}; }
        if !ok {
          return;
        }
      }
      ok, died := true, false;
    }

    // The effects of erasing what is left here.
    function PurgeSteps(): (n: nat)
      reads this`data, this`locks
      ensures n > 0
    {
      4 + |data| + |locks|
    }

    // The first part of the purge: guards, data, configuration.
    method EraseData() returns (ok: bool, died: bool)
      requires Valid() && record.Some? && Cleared(record.value)
      modifies this`data, this`config, this`script, this`purging
      ensures Valid() && purging == (old(purging) || purging) && (ok ==> purging && data == {} && config.None? && !died)
      ensures AllWork(old(script), 2 + |old(data)|) ==> ok && script == After(old(script), 2 + |old(data)|)
    {
      hide At, After, Cleared;
      ghost var start, d := script, |data|;
      AfterNone(start);
      NextEffect(start, 0);
      NextEffects(start, 1, d);
      NextEffect(start, 1 + d);
      // role guards and the scan for linked paths
      var done;
      done, ok, died := Effect();
      if !ok {
        return;
      }
      ok, died := RemoveFiles();
      if !ok {
        return;
      }
      done, ok, died := Effect();
      if done { config := None; }
    }

    // The last part: the destroy record goes last of all files, and then the root.
    method EraseRecord() returns (ok: bool, died: bool)
      requires Valid() && purging && record.Some? && config.None? && data == {} && locks == {}
      modifies this`record, this`root, this`script
      ensures Valid() && (record.Some? ==> record == old(record)) && (ok ==> Nothing() && !root && !died)
      ensures AllWork(old(script), 2) ==> ok
      ensures LastIsLost(old(script), 2) ==> !ok && Nothing() && root
    {
      hide At, After, Cleared, ValidDestroy;
      ghost var start := script;
      AfterNone(start);
      NextEffect(start, 0);
      NextEffect(start, 1);
      var done;
      done, ok, died := Effect();
      if done { record := None; }
      if !ok {
        return;
      }
      done, ok, died := Effect();
      if done { root := false; }
    }

    // All of it, in order.
    method Erase() returns (ok: bool, died: bool)
      requires Valid() && record.Some? && Cleared(record.value)
      modifies this`data, this`config, this`locks, this`record, this`root, this`script, this`purging
      ensures Valid() && Resumes()
      ensures ok ==> Nothing() && !root && !died
      ensures AllWork(old(script), old(PurgeSteps())) ==> ok
      ensures LastIsLost(old(script), old(PurgeSteps())) ==> !ok && Nothing() && root
    {
      hide AllWork, LastIsLost, At, After, Cleared, ValidDestroy, Continues;
      ContinuesItself(record.value);
      StagedEffects(script, 2 + |data|, |locks|, 2);
      ok, died := EraseData();
      if !ok {
        return;
      }
      ok, died := RemoveLocks();
      if !ok {
        return;
      }
      ok, died := EraseRecord();
    }

    /** PurgeManaged: only with the removals on record; data first, then the configuration, then the
        locks, and the destroy record last of all files. */
    method Purge() returns (ok: bool, died: bool)
      requires Valid()
      modifies this`data, this`config, this`locks, this`record, this`root, this`script, this`purging
      ensures Valid() && Resumes()
      ensures ok ==> Nothing() && !root && !died
      ensures old(record.Some? && Cleared(record.value) && AllWork(script, PurgeSteps())) ==> ok
      ensures old(record.Some? && Cleared(record.value) && LastIsLost(script, PurgeSteps())) ==>
                !ok && Nothing() && root
      ensures old(record).None? || !Cleared(old(record).value) ==>
              data == old(data) && config == old(config) && locks == old(locks) && record == old(record)
    {
      var cfg := Loaded();
      if cfg.None? || record.None? {
        return false, false;
      }
      if record.value.localOnly {
        if cfg.value.coordinator || cfg.value != record.value.configuration {
          return false, false;
        }
      } else if !record.value.deviceRemoved || (record.value.removePolicy && !record.value.policyRemoved) {
        return false, false;
      }
      ok, died := Erase();
    }

    // The effects of the remote steps.
    static function Removals(removePolicy: bool): nat {
      if removePolicy then 4 else 2
    }

    // The remote steps of a coordinator's teardown: each removal is confirmed, then recorded.
    method RemoveRemotely(removePolicy: bool) returns (ok: bool, died: bool)
      requires Valid() && record.Some? && !record.value.localOnly && record.value.removePolicy == removePolicy
      modifies this`record, this`device, this`policy, this`script
      ensures Valid() && Resumes() && record.Some?
      ensures ok ==> Cleared(record.value) && !device && (removePolicy ==> !policy) && !died
      ensures AllWork(old(script), Removals(removePolicy)) ==>
                ok && script == After(old(script), Removals(removePolicy))
    {
      hide At, After;
      ghost var start := script;
      AfterNone(start);
      NextEffect(start, 0);
      NextEffect(start, 1);
      NextEffect(start, 2);
      NextEffect(start, 3);
      var done;
      done, ok, died := Effect();
      if done { device := false; }
      if !ok {
        return;
      }
      ok, died := SaveRecord(record.value.(deviceRemoved := true));
      if !ok || !removePolicy {
        return;
      }
      done, ok, died := Effect();
      if done { policy := false; }
      if !ok {
        return;
      }
      ok, died := SaveRecord(record.value.(policyRemoved := true));
    }

    // The record a run works on: the retained one, if it is of the same kind.
    method FindRecord(cfg: Config, identity: Identity, o: Options) returns (found: Option<Destroy>)
      requires Valid() && cfg == original && !(purging && record.None?)
      ensures found.Some? ==>
                && found.value.configuration == original && found.value.removePolicy == o.removePolicy
                && (record.Some? ==> found == record)
                && (record.None? ==> !found.value.deviceRemoved && !found.value.policyRemoved)
                && (record.None? ==> found.value.localOnly == !cfg.coordinator)
                && (cfg.coordinator ==> !found.value.localOnly)
                && (!cfg.coordinator ==> found.value.localOnly || found.value.deviceRemoved)
      ensures Matching(o, identity) ==> found.Some? && ValidDestroy(found.value)
    {
      var localOnly := !cfg.coordinator;
      var d := if record.Some? then record.value
               else Destroy(cfg, if localOnly then NoIdentity else identity, o.removePolicy, false, false, localOnly);
      if d.configuration != cfg {
        return None;
      }
      if localOnly && !d.localOnly && !d.deviceRemoved {
        return None;
      }
      if !localOnly && (d.localOnly || d.identity.device != identity.device) {
        return None;
      }
      if d.removePolicy != o.removePolicy {
        return None;
      }
      found := Some(d);
    }

    // The effects of the removals.
    function RemovalSteps(coordinator: bool, removePolicy: bool): (n: nat)
      reads this`data, this`locks
      ensures n > 0
    {
      1 + (if coordinator then Removals(removePolicy) else 0) + PurgeSteps()
    }

    // The removals themselves, the record being written: daemon, remote steps, local files.
    method RemoveAll(coordinator: bool, removePolicy: bool) returns (ok: bool, died: bool)
      requires Valid() && record.Some? && record.value.removePolicy == removePolicy
      requires if coordinator then !record.value.localOnly
               else !removePolicy && (record.value.localOnly || record.value.deviceRemoved)
      modifies this`record, this`device, this`policy, this`script, this`data, this`config, this`locks, this`root,
        this`purging
      ensures Valid() && Resumes()
      ensures ok ==> Nothing() && !root && !died && (coordinator ==> !device && (removePolicy ==> !policy))
      ensures AllWork(old(script), old(RemovalSteps(coordinator, removePolicy))) ==> ok
      ensures LastIsLost(old(script), old(RemovalSteps(coordinator, removePolicy))) ==> !ok && Nothing() && root
    {
      hide AllWork, LastIsLost, At, After, ValidDestroy, Cleared, Continues, PurgeSteps, Removals;
      ContinuesItself(record.value);
      ghost var start, n, r := script, PurgeSteps(), if coordinator then Removals(removePolicy) else 0;
      AfterNone(start);
      StagedEffects(start, 1, r, n);
      // the managed daemon stops
      var done;
      done, ok, died := Effect();
      if !ok {
        return;
      }
      if coordinator {
        ok, died := RemoveRemotely(removePolicy);
        if !ok {
          return;
        }
      } else {
        NothingRemote(record.value);
      }
      ghost var kept := record.value;
      ok, died := Purge();
      if record.Some? { ContinuesOn(old(record).value, kept, record.value); }
    }

    // The effects of the steps under the onboarding lock.
    ghost function TearSteps(o: Options): (n: nat)
      reads this`data, this`locks
      ensures n > 0
    {
      (if original.coordinator then 1 else 0) + 1 + RemovalSteps(original.coordinator, o.removePolicy)
    }

    // The steps under the onboarding lock.
    method Tear(cfg: Config, identity: Identity, o: Options) returns (ok: bool, died: bool)
      requires Valid() && cfg == original && !(purging && record.None?) && (o.removePolicy ==> cfg.coordinator)
      modifies this`record, this`device, this`policy, this`script, this`data, this`config, this`locks, this`root,
        this`purging
      ensures Valid() && Resumes()
      ensures ok ==> Nothing() && !root && !died && (original.coordinator ==> !device && (o.removePolicy ==> !policy))
      ensures old(Matching(o, identity) && AllWork(script, TearSteps(o))) ==> ok
      ensures old(Matching(o, identity) && LastIsLost(script, TearSteps(o))) ==> !ok && Nothing() && root
    {
      hide AllWork, LastIsLost, At, After, ValidDestroy, Cleared, Matching, Continues, RemovalSteps;
      if record.Some? { ContinuesItself(record.value); }
      ghost var start, n, r := script, RemovalSteps(cfg.coordinator, o.removePolicy), if cfg.coordinator then 1 else 0;
      AfterNone(start);
      StagedEffects(start, r, 1, n);
      var found := FindRecord(cfg, identity, o);
      if found.None? {
        return false, false;
      }
      if cfg.coordinator {
        // authorisation and the read-only remote preflight
        var done;
        done, ok, died := Effect();
        if !ok {
          return;
        }
      }
      ok, died := SaveRecord(found.value);
      if ok {
        ok, died := RemoveAll(cfg.coordinator, o.removePolicy);
      }
    }

    // The retained record is the one these options would resume; on a first run there is none, and
    // a coordinator needs a usable identity.
    ghost predicate Matching(o: Options, identity: Identity)
      reads this
    {
      if record.None? then if original.coordinator then DeviceId(identity.device) else !o.removePolicy
      else
        && record.value.removePolicy == o.removePolicy && record.value.localOnly == !original.coordinator
        && (original.coordinator ==> record.value.identity.device == identity.device)
    }

    // These options start or resume a teardown of what is left, and nothing is in the way.
    ghost predicate Startable(o: Options, discovered: Option<Identity>)
      reads this
    {
      && (config.Some? || record.Some?)
      && (record.None? && original.coordinator ==> discovered.Some?)
      && Matching(o, if record.Some? then record.value.identity
                     else if discovered.Some? then discovered.value else NoIdentity)
      && o.confirmed && !o.dryRun && !onboarding && (o.removePolicy ==> original.coordinator)
    }

    // And no effect fails any more.
    ghost predicate Unobstructed(o: Options, discovered: Option<Identity>)
      reads this
    {
      Startable(o, discovered) && AllWork(script, 1 + TearSteps(o))
    }

    /** Shutdown with --destroy: over any sequence of runs, however they are interrupted, the record
        keeps its configuration, device and policy choice, its flags only go up, and success means
        that nothing is left here or, for a coordinator, there. */
    method Shutdown(o: Options, discovered: Option<Identity>) returns (outcome: Outcome)
      requires Valid()
      modifies this
      ensures Valid() && Resumes()
      ensures outcome == Destroyed ==>
              Nothing() && !root && (original.coordinator ==> !device && (o.removePolicy ==> !policy))
      ensures o.dryRun || !o.confirmed ==>
                && outcome == Stopped && record == old(record) && data == old(data) && config == old(config)
                && device == old(device) && policy == old(policy)
      ensures old(Unobstructed(o, discovered)) ==> outcome == Destroyed
      ensures old(Startable(o, discovered) && LastIsLost(script, 1 + TearSteps(o))) ==>
                outcome == Stopped && Nothing() && root
      ensures old(config.None? && record.None?) ==> outcome == Stopped && Nothing() && root == old(root)
    {
      hide AllWork, LastIsLost, At, After, ValidDestroy, Continues, Cleared, TearSteps;
      ghost var start, n := script, TearSteps(o);
      AfterNone(start);
      StagedEffects(start, 0, 1, n);
      if record.Some? { ContinuesItself(record.value); }
      var cfg := Loaded();
      if cfg.None? || (o.removePolicy && !cfg.value.coordinator) {
        return Stopped;
      }
      var identity := NoIdentity;
      if cfg.value.coordinator {
        // ResolveManagedIdentity: the record's device, or the retained one
        if record.Some? && record.value.localOnly {
          return Stopped;
        }
        if record.None? && discovered.None? {
          return Stopped;
        }
        identity := if record.Some? then record.value.identity else discovered.value;
      }
      if o.dryRun || !o.confirmed || onboarding {
        return Stopped;
      }
      var done, ok, died := Effect();
      onboarding := done;
      if ok {
        ok, died := Tear(cfg.value, identity, o);
      }
      // the deferred removal of the onboarding lock
      if !died { onboarding := false; }
      outcome := if ok then Destroyed else Stopped;
    }

    // A lock left by a run that died is inspected and removed by the operator.
    method RemoveStaleLock()
      requires Valid()
      modifies this`onboarding
      ensures Valid() && !onboarding
    {
      onboarding := false;
    }

    /** A record of a local teardown claims no remote removal and names no device; any other names one.
        What a record says was removed is gone. */
    lemma RecordsTellTheTruth()
      requires Valid() && record.Some?
      ensures var d := record.value;
              && (d.localOnly ==>
                    && !d.removePolicy && !d.deviceRemoved && !d.policyRemoved && d.identity == NoIdentity
                    && !original.coordinator)
              && (!d.localOnly ==> 1 <= |d.identity.device| <= 128)
              && d.configuration == original && (d.deviceRemoved ==> !device) && (d.policyRemoved ==> !policy)
    {
    }

    /** Every state a run can leave can be resumed, exactly as long as the configuration or the
        destroy record is left; and when neither is, nothing else is. */
    lemma ResumableUntilTheEnd()
      requires Valid()
      ensures Loaded() == Some(original) <==> config.Some? || record.Some?
      ensures Loaded().None? ==> Nothing()
    {
    }
  }

  // All effects but the last work.
  function AllButTheLast(n: nat): (script: seq<Answer>)
    requires n > 0
    ensures LastIsLost(script, n)
  {
    seq(n - 1, _ => Works) + [Fails]
  }

  /** The one state that is not resumed: a client's teardown whose very last effect fails leaves the
      empty root, with neither configuration nor record, and the next run refuses. */
  method StuckAtTheEnd(config: Config, data: set<string>, locks: set<string>, discovered: Option<Identity>)
    returns (left: Installation, first: Outcome, second: Outcome)
    requires config.valid && !config.coordinator
    ensures first == Stopped && second == Stopped
    ensures left.Valid() && left.root && left.Nothing() && left.Loaded().None?
  {
    hide AllWork, LastIsLost;
    var o := Options(false, false, true);
    left := new Installation(config, data, locks, AllButTheLast(7 + |data| + |locks|));
    assert 1 + left.TearSteps(o) == 7 + |data| + |locks|;
    first := left.Shutdown(o, discovered);
    second := left.Shutdown(o, discovered);
  }
}
