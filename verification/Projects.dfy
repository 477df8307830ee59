/** Project configurations on the node: generations fence stale deliveries, and only the binding of
    the latest seen generation is ever handed out.
 */
module Projects {
  import opened Messages
  import opened Text
  import B = Bindings

  datatype Config = Config(project: string, generation: nat, checkout: string, root: string)

  datatype Ack = Applied(generation: nat) | Invalid(generation: nat, conflict: bool)

  // protocol.ProjectRevision
  function Revision(generation: nat): string {
    "managed:" + Decimal(generation)
  }

  lemma RevisionsDiffer(a: nat, b: nat)
    requires Revision(a) == Revision(b)
    ensures a == b
  {
    assert Revision(a)[8..] == Decimal(a) && Revision(b)[8..] == Decimal(b);
    DecimalIsInjective(a, b);
  }

  // A journal write: done, done without reply, or not done.
  datatype Write = Saved | SavedWithoutReply | NotSaved

  // What one delivery meets: verification of the coordinator, the journal, the retained owner's
  // paths, a legacy binding for these paths, and the configured paths on the tree.
  datatype Delivery = Delivery(verified: bool, config: Write, ack: Write,
                               ownerCheckout: Option<B.Path>, ownerRoot: Option<B.Path>,
                               legacy: Option<B.Binding>, checkout: Option<B.Path>, root: B.RootRequest,
                               lucks: seq<B.Luck>, displayable: bool)

  // What a retained success meets when a stream begins: its checkout and root, if they still exist.
  datatype Retained = Retained(checkout: Option<B.Path>, root: Option<B.Path>, luck: B.Luck)

  datatype Reply = Acknowledged(ack: Ack) | Stale | Conflicting | Unverified | StorageFailed

  // The generation a map of configurations has for a project; 0 when it has none.
  function Generation(configs: map<string, Config>, project: string): nat {
    if project in configs then configs[project].generation else 0
  }

  class ProjectHandler {
    // this stream's bindings
    var managed: B.Managed
    // the latest configuration seen
    var seen: map<string, Config>
    // the outcome for the latest seen generation, in this stream
    var current: map<string, Ack>
    // the last successful outcome
    var ownership: map<string, Ack>
    // the journal's configurations and last successful outcomes
    var stored: map<string, Config>
    var applied: map<string, Ack>

    constructor (managed: B.Managed)
      requires managed.Valid()
      ensures this.managed == managed && seen == map[] && stored == map[] && applied == map[] && Valid()
    {
      this.managed, seen, current, ownership, stored, applied := managed, map[], map[], map[], map[], map[];
    }

    ghost predicate Valid()
      reads this, managed
    {
      && managed.Valid()
      && Recorded(seen, stored)
      && Fencing(seen, current, managed.bindings)
      && Owned(ownership, applied, stored)
    }

    /** restoreProjects: a new stream, in this process or the next, starts from the journal with an
        empty cache.  Retained successes are revalidated and may be bound again, to their own
        revision and nothing else; none of them counts as an outcome of this stream. */
    method Restart(found: string -> Retained)
      requires Valid()
      modifies this
      ensures Valid() && fresh(managed) && B.Stable(old(managed.tree), managed.tree)
      ensures seen == stored == old(stored) && current == map[] && ownership == applied == old(applied)
      ensures OnlyOwners(managed.bindings, ownership)
      ensures forall p :: Generation(seen, p) >= old(Generation(seen, p))
    {
      hide B.Managed.Valid, B.Stable, Revision, Owned, Recorded, B.Sound, OnlyOwners;
      assert B.Sound(managed.tree) by { SoundTree(managed); }
      ghost var was := managed.tree;
      GenerationsGrow(seen, stored);
      StoredIsRecorded(stored);
      AppliedIsOwned(ownership, applied, stored);
      seen, current, ownership := stored, map[], applied;
      managed := new B.Managed(managed.tree);
      NoOwners(ownership);
      B.StableReflexive(was);
      var left := ownership.Keys;
      while left != {}
        invariant fresh(managed) && managed.Valid() && B.Stable(was, managed.tree)
        invariant seen == stored == old(stored) && current == map[] && ownership == applied == old(applied)
        invariant left <= ownership.Keys && OnlyOwners(managed.bindings, ownership)
        decreases |left|
      {
        var p :| p in left;
        left := left - {p};
        ghost var before, tree := managed.bindings, managed.tree;
        var owned := found(p);
        var r := managed.RestoreOwnership(p, Revision(ownership[p].generation), owned.checkout, owned.root, owned.luck);
        if r.Bound? { OneOwner(before, ownership, p, r.binding); }
        B.StableOn(was, tree, managed.tree);
      }
    }

    // The retained binding is revalidated, and a legacy binding for the same paths is adopted.
    method Reclaim(c: Config, d: Delivery)
      requires managed.Valid() && |d.lucks| == 3
      modifies managed
      ensures managed.Valid()
      ensures OnlyChanges(old(managed.bindings), managed.bindings, c.project)
      ensures c.project !in old(ownership) && d.legacy.None? ==>
                managed.bindings == old(managed.bindings) && managed.tree == old(managed.tree)
    {
      hide B.Managed.Valid, B.Stable, B.BindingPinned, Revision, OnlyChanges;
      ghost var start := managed.bindings;
      NothingChanges(start, c.project);
      var r;
      if c.project in ownership {
        var revision := Revision(ownership[c.project].generation);
        r := managed.Resolve(c.project, revision);
        if r.Refused? {
          r := managed.RestoreOwnership(c.project, revision, d.ownerCheckout, d.ownerRoot, d.lucks[0]);
          if r.Bound? { OneChanges(start, start, c.project, r.binding); }
        }
      }
      if d.legacy.Some? {
        ghost var between := managed.bindings;
        r := managed.AdoptLegacy(c.project, d.legacy.value, d.lucks[1]);
        if r.Bound? { OneChanges(start, between, c.project, r.binding); }
      }
    }

    // The journal has nothing later for the project, and nothing else for the generation.
    predicate Storable(c: Config)
      reads this`stored
    {
      c.project in stored ==>
        c.generation > stored[c.project].generation || c == stored[c.project]
    }

    // NodeJournal.SaveProjectConfig: generations only grow, and one generation has one content.
    method SaveConfig(c: Config, write: Write) returns (ok: bool)
      requires Recorded(seen, stored) && Generation(seen, c.project) <= c.generation
      modifies this`stored
      ensures Recorded(seen, stored) && (ok ==> c.project in stored && stored[c.project] == c)
      ensures old(Owned(ownership, applied, stored)) ==> Owned(ownership, applied, stored)
      ensures ok <==> write.Saved? && old(Storable(c))
      ensures forall p :: Generation(stored, p) >= old(Generation(stored, p))
    {
      if c.project in stored && (c.generation < stored[c.project].generation
                                 || (c.generation == stored[c.project].generation && c != stored[c.project])) {
        return false;
      }
      if write.NotSaved? {
        return false;
      }
      stored := stored[c.project := c];
      ok := write.Saved?;
    }

    // This configuration already has its outcome in this stream.
    predicate Known(c: Config)
      reads this`seen, this`current
    {
      c.project in seen && c == seen[c.project] && c.project in current
    }

    // A later generation, or the latest one again without an outcome in this stream.
    predicate New(c: Config)
      reads this`seen, this`current
    {
      c.project in seen ==>
        c.generation > seen[c.project].generation || (c == seen[c.project] && c.project !in current)
    }

    // The journal stores, nothing has to be reclaimed, and the paths can be bound.
    ghost predicate Unhindered(c: Config, d: Delivery)
      requires |d.lucks| == 3
      reads this, managed
    {
      && d.config.Saved? && d.ack.Saved? && d.displayable && d.legacy.None? && c.project !in ownership
      && managed.Bindable(c.project, Revision(c.generation), d.checkout, d.root, None, d.lucks[2])
    }

    /** applyProject: the seen generation never decreases; a stale delivery changes nothing, and
        neither does an equal generation with other content. */
    method ApplyProject(c: Config, d: Delivery) returns (r: Reply)
      requires Valid() && |d.lucks| == 3
      modifies this, managed
      ensures Valid() && managed == old(managed)
      ensures forall p :: Generation(seen, p) >= old(Generation(seen, p))
      ensures r.Unverified? <==> !d.verified
      ensures r.Stale? <==> d.verified && old(c.project in seen && c.generation < seen[c.project].generation)
      ensures r.Conflicting? <==>
              d.verified && old(c.project in seen && c.generation == seen[c.project].generation && c != seen[c.project])
      ensures d.verified && old(Known(c)) ==> r == Acknowledged(old(current)[c.project]) && seen == old(seen)
      ensures d.verified && old(New(c) && Storable(c)) && d.config.Saved? && d.ack.Saved? ==> r.Acknowledged?
      ensures d.verified && old(New(c) && Storable(c) && Unhindered(c, d)) ==> r == Acknowledged(Applied(c.generation))
      ensures r in {Stale, Conflicting, Unverified} ==>
                && seen == old(seen) && current == old(current) && stored == old(stored)
                && managed.bindings == old(managed.bindings)
      ensures r.Acknowledged? ==>
                && c.project in seen && seen[c.project] == c && c.project in current && current[c.project] == r.ack
                && r.ack.generation == c.generation
    {
      hide Fencing, Recorded, B.Managed.Valid;
      if !d.verified {
        return Unverified;
      }
      if c.project in seen {
        CurrentIsSeen(seen, current, managed.bindings, c.project);
        if c.generation < seen[c.project].generation {
          return Stale;
        }
        if c.generation == seen[c.project].generation && c != seen[c.project] {
          return Conflicting;
        }
        if c.project in current && current[c.project].generation == c.generation {
          return Acknowledged(current[c.project]);
        }
      }
      var ok := SaveConfig(c, d.config);
      if !ok {
        return StorageFailed;
      }
      SeenAdvances(seen, stored, current, managed.bindings, c);
      seen, current := seen[c.project := c], current - {c.project};
      r := Bind(c, d);
    }

    // The configuration is applied, and the outcome recorded.
    method Bind(c: Config, d: Delivery) returns (r: Reply)
      requires Valid() && |d.lucks| == 3 && c.project in seen && seen[c.project] == c && c.project !in current
      requires c.project in stored && stored[c.project] == c
      modifies this`current, this`ownership, this`applied, managed
      ensures Valid()
      ensures r.StorageFailed? || r.Acknowledged?
      ensures d.ack.Saved? ==> r.Acknowledged?
      ensures old(Unhindered(c, d)) ==> r == Acknowledged(Applied(c.generation))
      ensures r.Acknowledged? ==>
                c.project in current && current[c.project] == r.ack && r.ack.generation == c.generation
    {
      hide Recorded, Fencing, Owned, B.Managed.Valid, B.Stable, B.BindingPinned, Revision, OnlyChanges;
      ghost var before := managed.bindings;
      Reclaim(c, d);
      ghost var reclaimed := managed.bindings;
      var bound := managed.Apply(c.project, Revision(c.generation), d.checkout, d.root, None, d.lucks[2]);
      var ack := if bound.Bound? && d.displayable then Applied(c.generation)
                 else Invalid(c.generation, bound.Refused? && bound.failure.InvalidPolicy?);
      if bound.Bound? { OneChanges(before, reclaimed, c.project, bound.binding); }
      OthersKeepFence(seen, current, before, managed.bindings, c.project);
      if !d.ack.NotSaved? && ack.Applied? {
        SuccessIsOwned(ownership, applied, stored, c, ack);
        applied := applied[c.project := ack];
      }
      if !d.ack.Saved? {
        return StorageFailed;
      }
      CurrentAdvances(seen, current, managed.bindings, c, ack);
      current := current[c.project := ack];
      if ack.Applied? {
        ownership := ownership[c.project := ack];
      }
      r := Acknowledged(ack);
    }

    /** resolveManaged: a binding is only handed out when it was applied for the latest generation
        this process has seen, and then it is the one of that generation. */
    method ResolveManaged(project: string, revision: string) returns (r: B.Reply)
      requires Valid()
      ensures r.Bound? <==>
                project in current && current[project].Applied? && revision == Revision(current[project].generation)
      ensures r.Bound? ==>
                && project in seen && revision == Revision(seen[project].generation)
                && project in managed.bindings && managed.bindings[project] == r.binding
                && r.binding.revision == revision
      ensures (exists g: nat | g < Generation(seen, project) :: revision == Revision(g)) ==> r.Refused?
    {
      if project !in current || !current[project].Applied? || Revision(current[project].generation) != revision {
        return B.Refused(B.Denied);
      }
      forall g: nat | g < Generation(seen, project) ensures revision != Revision(g) {
        if revision == Revision(g) { RevisionsDiffer(current[project].generation, g); }
      }
      r := managed.Resolve(project, revision);
    }
  }

  // No other project's binding changes.
  predicate OnlyChanges(before: map<string, B.Binding>, after: map<string, B.Binding>, project: string) {
    forall p | p != project && p in before :: p in after && after[p] == before[p]
  }

  lemma CurrentIsSeen(seen: map<string, Config>, current: map<string, Ack>, bindings: map<string, B.Binding>, p: string)
    requires Fencing(seen, current, bindings) && p in seen
    ensures p in current ==> current[p].generation == seen[p].generation
  {
  }

  lemma NothingChanges(bindings: map<string, B.Binding>, project: string)
    ensures OnlyChanges(bindings, bindings, project)
  {
  }

  lemma OneChanges(before: map<string, B.Binding>, after: map<string, B.Binding>, project: string, b: B.Binding)
    requires OnlyChanges(before, after, project)
    ensures OnlyChanges(before, after[project := b], project)
  {
  }

  // What was seen is in the journal, which may be ahead by a write whose reply was lost.
  predicate Recorded(seen: map<string, Config>, stored: map<string, Config>) {
    forall p | p in seen :: p in stored && stored[p].generation >= seen[p].generation
  }

  lemma GenerationsGrow(seen: map<string, Config>, stored: map<string, Config>)
    requires Recorded(seen, stored)
    ensures forall p :: Generation(stored, p) >= Generation(seen, p)
  {
  }

  lemma StoredIsRecorded(stored: map<string, Config>)
    ensures Recorded(stored, stored)
  {
  }

  // The successes of this stream are in the journal, which may be ahead; none is ahead of its
  // configuration.
  predicate Owned(ownership: map<string, Ack>, applied: map<string, Ack>, stored: map<string, Config>) {
    && (forall p | p in ownership :: p in applied && ownership[p].generation <= applied[p].generation)
    && (forall p | p in applied ::
          applied[p].Applied? && p in stored && applied[p].generation <= stored[p].generation)
  }

  lemma AppliedIsOwned(ownership: map<string, Ack>, applied: map<string, Ack>, stored: map<string, Config>)
    requires Owned(ownership, applied, stored)
    ensures Owned(applied, applied, stored)
  {
  }

  lemma SuccessIsOwned(ownership: map<string, Ack>, applied: map<string, Ack>, stored: map<string, Config>,
                       c: Config, ack: Ack)
    requires Owned(ownership, applied, stored)
    requires c.project in stored && stored[c.project] == c && ack == Applied(c.generation)
    ensures Owned(ownership, applied[c.project := ack], stored)
    ensures Owned(ownership[c.project := ack], applied[c.project := ack], stored)
  {
  }

  // Only retained owners are bound, each to the revision it was applied for.
  predicate OnlyOwners(bindings: map<string, B.Binding>, ownership: map<string, Ack>) {
    forall p | p in bindings :: p in ownership && bindings[p].revision == Revision(ownership[p].generation)
  }

  lemma NoOwners(ownership: map<string, Ack>)
    ensures OnlyOwners(map[], ownership)
  {
  }

  lemma OneOwner(bindings: map<string, B.Binding>, ownership: map<string, Ack>, p: string, b: B.Binding)
    requires OnlyOwners(bindings, ownership) && p in ownership && b.revision == Revision(ownership[p].generation)
    ensures OnlyOwners(bindings[p := b], ownership)
  {
  }

  lemma SoundTree(managed: B.Managed)
    requires managed.Valid()
    ensures B.Sound(managed.tree)
  {
  }

  // An outcome is always about the latest seen generation, and a success about the bound revision.
  predicate Fencing(seen: map<string, Config>, current: map<string, Ack>, bindings: map<string, B.Binding>) {
    forall p | p in current ::
      && p in seen && current[p].generation == seen[p].generation
      && (current[p].Applied? ==> p in bindings && bindings[p].revision == Revision(seen[p].generation))
  }

  lemma SeenAdvances(seen: map<string, Config>, stored: map<string, Config>, current: map<string, Ack>,
                     bindings: map<string, B.Binding>, c: Config)
    requires Recorded(seen, stored) && Fencing(seen, current, bindings) && c.project in stored && stored[c.project] == c
    ensures Recorded(seen[c.project := c], stored) && Fencing(seen[c.project := c], current - {c.project}, bindings)
  {
  }

  lemma OthersKeepFence(seen: map<string, Config>, current: map<string, Ack>, before: map<string, B.Binding>,
                        after: map<string, B.Binding>, project: string)
    requires Fencing(seen, current, before) && project !in current
    requires OnlyChanges(before, after, project)
    ensures Fencing(seen, current, after)
  {
  }

  lemma CurrentAdvances(seen: map<string, Config>, current: map<string, Ack>, bindings: map<string, B.Binding>,
        c: Config, ack: Ack)
    requires Fencing(seen, current, bindings) && c.project in seen && seen[c.project] == c
    requires ack.generation == c.generation
    requires ack.Applied? ==> c.project in bindings && bindings[c.project].revision == Revision(c.generation)
    ensures Fencing(seen, current[c.project := ack], bindings)
  {
  }
}
