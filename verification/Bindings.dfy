/** Project bindings on the node's directory tree: no two pinned checkouts or worktree roots are
    ever equal or nested.
 */
module Bindings {
  import opened Messages

  const MaxBindings := 128

  // A canonical directory, as the names from the root down.
  type Path = seq<string>

  // The directory tree: the identity of every directory, entries that are no directories, and the
  // directories that are not empty.
  datatype Tree = Tree(dirs: map<Path, nat>, files: set<Path>, full: set<Path>)

  // A directory's parent is a directory, and each directory has one identity and one canonical path.
  ghost predicate Sound(t: Tree) {
    && (forall p | p in t.dirs && p != [] :: p[..|p| - 1] in t.dirs)
    && (forall p, q | p in t.dirs && q in t.dirs && t.dirs[p] == t.dirs[q] :: p == q)
    && (forall p | p in t.files :: p !in t.dirs)
  }

  // The tree grows, but what is there stays where it is.
  ghost predicate Stable(a: Tree, b: Tree) {
    forall p | p in a.dirs :: p in b.dirs && b.dirs[p] == a.dirs[p]
  }

  // A directory and the identity it was pinned with.
  datatype Pin = Pin(path: Path, identity: nat)

  datatype Binding = Binding(revision: string, checkout: Pin, root: Option<Pin>)

  predicate Nested(a: Path, b: Path) {
    a <= b || b <= a
  }

  predicate Pinned(t: Tree, p: Pin) {
    p.path in t.dirs && t.dirs[p.path] == p.identity
  }

  lemma {:induction false} AncestorsExist(t: Tree, p: Path, k: nat)
    requires Sound(t) && p in t.dirs && k <= |p|
    ensures p[..k] in t.dirs
    decreases |p|
  {
    if k < |p| {
      AncestorsExist(t, p[..|p| - 1], k);
      assert p[..|p| - 1][..k] == p[..k];
    } else {
      assert p[..k] == p;
    }
  }

  // The upward walk of directoriesOverlap and ancestorHasIdentity: whether some directory on the way
  // from `path` to the root is the pinned one.
  method HasAncestor(t: Tree, path: Path, pin: Pin) returns (found: bool)
    requires Sound(t) && path in t.dirs && Pinned(t, pin)
    ensures found <==> pin.path <= path
  {
    hide Sound, Pinned;
    assert pin.path <= path ==> path[..|pin.path|] == pin.path;
    var k := |path|;
    while true
      invariant 0 <= k <= |path|
      invariant forall j | k < j <= |path| :: path[..j] != pin.path
      decreases k
    {
      AncestorsExist(t, path, k);
      SameIdentity(t, path[..k], pin);
      if t.dirs[path[..k]] == pin.identity {
        return true;
      }
      if k == 0 {
        return false;
      }
      k := k - 1;
    }
  }

  lemma SameIdentity(t: Tree, p: Path, pin: Pin)
    requires Sound(t) && p in t.dirs && Pinned(t, pin)
    ensures t.dirs[p] == pin.identity <==> p == pin.path
  {
  }

  /** directoriesOverlap: comparing identities along both ancestor chains decides exactly whether one
      directory contains the other. */
  method DirectoriesOverlap(t: Tree, a: Pin, b: Pin) returns (overlap: bool)
    requires Sound(t) && Pinned(t, a) && Pinned(t, b)
    ensures overlap <==> Nested(a.path, b.path)
  {
    overlap := HasAncestor(t, a.path, b);
    if !overlap {
      overlap := HasAncestor(t, b.path, a);
    }
  }

  // A worktree root is apart from the j-th binding's checkout and, unless it is its own, root.
  predicate RootApart(bs: seq<Binding>, i: nat, j: nat)
    requires i < |bs| && j < |bs|
  {
    bs[i].root.Some? ==>
      && !Nested(bs[i].root.value.path, bs[j].checkout.path)
      && (i != j && bs[j].root.Some? ==> !Nested(bs[i].root.value.path, bs[j].root.value.path))
  }

  /** validateWorktreeOverlaps: a policy file's bindings are accepted exactly when every worktree root
      is apart from every checkout and every other root. */
  method ValidateWorktreeOverlaps(t: Tree, bs: seq<Binding>) returns (ok: bool)
    requires Sound(t) && forall i | 0 <= i < |bs| :: BindingPinned(t, bs[i])
    ensures ok <==> forall i, j | 0 <= i < |bs| && 0 <= j < |bs| :: RootApart(bs, i, j)
  {
    hide Sound, Nested;
    for i := 0 to |bs|
      invariant forall k, j | 0 <= k < i && 0 <= j < |bs| :: RootApart(bs, k, j)
    {
      if bs[i].root.Some? {
        var root := bs[i].root.value;
        for j := 0 to |bs|
          invariant forall k | 0 <= k < j :: RootApart(bs, i, k)
        {
          var overlap := DirectoriesOverlap(t, root, bs[j].checkout);
          if !overlap && i != j && bs[j].root.Some? {
            overlap := DirectoriesOverlap(t, root, bs[j].root.value);
          }
          if overlap {
            assert !RootApart(bs, i, j);
            return false;
          }
        }
      }
    }
    ok := true;
  }

  // A missing leaf is disjoint from a pinned directory exactly if its parent is not inside it.
  lemma AbsentLeaf(t: Tree, parent: Path, leaf: string, pin: Pin)
    requires Sound(t) && parent in t.dirs && parent + [leaf] !in t.dirs && Pinned(t, pin)
    ensures Nested(parent + [leaf], pin.path) <==> pin.path <= parent
  {
    hide Sound;
    var root := parent + [leaf];
    if root <= pin.path {
      assert pin.path[..|root|] == root;
      AncestorsExist(t, pin.path, |root|);
    } else if pin.path <= root {
      assert pin.path == root[..|pin.path|];
      assert |pin.path| < |root|;
      assert root[..|pin.path|] == parent[..|pin.path|];
    }
  }

  /******* The bindings *******/

  function Pins(b: Binding): seq<Pin> {
    [b.checkout] + if b.root.Some? then [b.root.value] else []
  }

  predicate Apart(a: Binding, b: Binding) {
    forall p, q | p in Pins(a) && q in Pins(b) :: !Nested(p.path, q.path)
  }

  // A binding whose own checkout and root are apart.
  predicate Proper(b: Binding) {
    b.root.Some? && !Nested(b.checkout.path, b.root.value.path)
  }

  ghost predicate Disjoint(bindings: map<string, Binding>) {
    && (forall id | id in bindings :: Proper(bindings[id]))
    && (forall a, b | a in bindings && b in bindings && a != b :: Apart(bindings[a], bindings[b]))
  }

  ghost predicate AllPinned(t: Tree, bindings: map<string, Binding>) {
    forall id | id in bindings :: BindingPinned(t, bindings[id])
  }

  predicate BindingPinned(t: Tree, b: Binding) {
    Pinned(t, b.checkout) && (b.root.Some? ==> Pinned(t, b.root.value))
  }

  datatype Failure = InvalidPolicy | InvalidPath | Denied

  datatype Reply = Bound(binding: Binding) | Refused(failure: Failure)

  // What a call meets outside the tree: cancellation at its three checks, and whether mkdir works.
  datatype Luck = Luck(canceledFirst: bool, canceledSecond: bool, canceledLast: bool, mkdir: bool, identity: nat)

  // The requested root: the default sibling, or a leaf below an existing parent; None when its
  // parent cannot be resolved or is the root itself.
  datatype RootRequest = DefaultRoot | Below(parent: Option<Path>, leaf: string)

  class Managed {
    var bindings: map<string, Binding>
    var tree: Tree

    constructor (tree: Tree)
      requires Sound(tree)
      ensures this.tree == tree && bindings == map[] && Valid()
    {
      bindings, this.tree := map[], tree;
    }

    ghost predicate Valid()
      reads this
    {
      Sound(tree) && AllPinned(tree, bindings) && Disjoint(bindings) && |bindings| <= MaxBindings
    }

    // Something else adds to the tree.
    method External(next: Tree)
      requires Valid() && Sound(next) && Stable(tree, next)
      modifies this`tree
      ensures Valid() && tree == next
    {
      tree := next;
    }

    // Resolve for the exact project and revision
    method Resolve(project: string, revision: string) returns (r: Reply)
      ensures r ==
              if project in bindings && bindings[project].revision == revision then Bound(bindings[project])
              else Refused(Denied)
    {
      if project !in bindings || bindings[project].revision != revision {
        return Refused(Denied);
      }
      r := Bound(bindings[project]);
    }

    // One other project's pins, collected and checked against the checkout.
    method CollectPins(checkout: Pin, theirs: seq<Pin>, sofar: seq<Pin>) returns (clear: bool, pins: seq<Pin>)
      requires Sound(tree) && Pinned(tree, checkout) && AllOf(tree, theirs) && AllOf(tree, sofar)
      ensures clear <==> Clear(checkout.path, theirs)
      ensures clear ==> AllOf(tree, pins) && pins == sofar + theirs
    {
      hide Sound, Pinned, Nested;
      pins := sofar;
      for i := 0 to |theirs|
        invariant AllOf(tree, pins) && pins == sofar + theirs[..i]
        invariant forall k | 0 <= k < i :: !Nested(checkout.path, theirs[k].path)
      {
        var overlap := DirectoriesOverlap(tree, checkout, theirs[i]);
        if overlap {
          return false, pins;
        }
        pins := pins + [theirs[i]];
      }
      clear := true;
    }

    // The first loop of apply: the checkout against every pin of the other projects.
    method OtherPins(project: string, checkout: Pin) returns (clear: bool, pins: seq<Pin>)
      requires Valid() && Pinned(tree, checkout)
      ensures clear <==> forall id | id in bindings && id != project :: Clear(checkout.path, Pins(bindings[id]))
      ensures clear ==> AllOf(tree, pins) && Gathers(pins, checkout, bindings, bindings.Keys - {project})
    {
      hide Sound, Pinned, Clear, Disjoint, Pins, Gathers, AllOf;
      pins := [checkout];
      GatherNone(tree, checkout, bindings);
      ghost var others := bindings.Keys - {project};
      var left := bindings.Keys - {project};
      ghost var seen := {};
      while left != {}
        invariant seen + left == others && AllOf(tree, pins) && Gathers(pins, checkout, bindings, seen)
        invariant forall id | id in seen :: Clear(checkout.path, Pins(bindings[id]))
        decreases |left|
      {
        var id :| id in left;
        assert id in others && id in bindings;
        ghost var before := pins;
        PinsArePinned(tree, bindings, id);
        clear, pins := CollectPins(checkout, Pins(bindings[id]), pins);
        if !clear {
          return;
        }
        GatherMore(before, checkout, bindings, seen, id);
        left, seen := left - {id}, seen + {id};
      }
      assert seen == others;
      clear := true;
    }

    // The second loop: the root against all of them.
    method RootClear(parent: Path, leaf: string, pins: seq<Pin>) returns (clear: bool)
      requires Sound(tree) && parent in tree.dirs && AllOf(tree, pins)
      ensures clear <==> Clear(parent + [leaf], pins)
    {
      hide Sound, Nested;
      var root := parent + [leaf];
      for i := 0 to |pins|
        invariant forall k | 0 <= k < i :: !Nested(root, pins[k].path)
      {
        var overlap;
        if root in tree.dirs {
          overlap := DirectoriesOverlap(tree, Pin(root, tree.dirs[root]), pins[i]);
        } else {
          AbsentLeaf(tree, parent, leaf, pins[i]);
          overlap := HasAncestor(tree, parent, pins[i]);
        }
        if overlap {
          return false;
        }
      }
      clear := true;
    }

    // What the code knows of the root before it exists: its parent, its name, and what is there.
    method LocateRoot(checkout: Path, request: RootRequest) returns (place: Option<(Path, string)>)
      requires Sound(tree) && checkout in tree.dirs
      ensures place == RootPlace(tree, checkout, request)
      ensures place.Some? ==> place.value.0 in tree.dirs && place.value.0 + [place.value.1] !in tree.files
    {
      var parent, leaf := [], "-worktrees";
      match request {
        case DefaultRoot =>
          AncestorsExist(tree, checkout, if checkout == [] then 0 else |checkout| - 1);
          if checkout != [] {
            parent, leaf := checkout[..|checkout| - 1], checkout[|checkout| - 1] + "-worktrees";
          }
        case Below(p, name) =>
          if p.None? || p.value !in tree.dirs {
            return None;
          }
          parent, leaf := p.value, name;
      }
      return if parent + [leaf] in tree.files then None else Some((parent, leaf));
    }

    // mkdir, with an identity no directory has.
    method MakeRoot(root: Path, luck: Luck) returns (ok: bool)
      requires Valid() && root != [] && root[..|root| - 1] in tree.dirs && root !in tree.dirs && root !in tree.files
      modifies this`tree
      ensures Valid() && Stable(old(tree), tree)
      ensures ok <==> luck.mkdir && luck.identity !in old(tree).dirs.Values
      ensures ok ==> tree == old(tree).(dirs := old(tree).dirs[root := luck.identity])
    {
      if !luck.mkdir || luck.identity in tree.dirs.Values {
        return false;
      }
      GrownTree(tree, root, luck.identity, bindings);
      tree := tree.(dirs := tree.dirs[root := luck.identity]);
      ok := true;
    }

    // When apply binds.
    ghost predicate Bindable(project: string, revision: string, checkout: Option<Path>, request: RootRequest,
                             adopted: Option<Pin>, luck: Luck)
      reads this
    {
      && !luck.canceledFirst && !luck.canceledSecond && !luck.canceledLast
      && (project in bindings || |bindings| < MaxBindings)
      && checkout.Some? && checkout.value in tree.dirs
      && RootPlace(tree, checkout.value, request).Some?
      && var (parent, leaf) := RootPlace(tree, checkout.value, request).value;
         var root := parent + [leaf];
         && !Reused(bindings, project, revision, checkout.value, root)
         && Fits(bindings, project, checkout.value, root)
         && if root in tree.dirs then Owned(bindings, project, adopted, tree.dirs[root]) || root !in tree.full
            else luck.mkdir && luck.identity !in tree.dirs.Values
    }

    /** apply: a project is bound to its checkout and root exactly when both are apart from each other
        and from every other project's, the root is the project's own, empty or can be made, and
        nothing interrupts; a call that fails changes no binding. */
    method Apply(project: string, revision: string, checkout: Option<Path>, request: RootRequest,
                 adopted: Option<Pin>, luck: Luck) returns (r: Reply)
      requires Valid()
      modifies this`bindings, this`tree
      ensures Valid() && Stable(old(tree), tree)
      ensures r.Bound? <==> old(Bindable(project, revision, checkout, request, adopted, luck))
      ensures r.Refused? ==> bindings == old(bindings)
      ensures r.Bound? ==>
                && bindings == old(bindings)[project := r.binding] && r.binding.revision == revision
                && checkout == Some(r.binding.checkout.path) && r.binding.root.Some?
                && Some(r.binding.root.value.path) == WantedRoot(checkout.value, request)
                && r.binding.checkout.identity == old(tree).dirs[checkout.value]
                && r.binding.root.value.identity == (if r.binding.root.value.path in old(tree).dirs
                                                     then old(tree).dirs[r.binding.root.value.path]
                                                     else luck.identity)
      ensures r.Bound? && r.binding.root.value.path in old(tree).dirs && r.binding.root.value.path in old(tree).full ==>
                || (&& project in old(bindings) && old(bindings)[project].root.Some?
                    && old(bindings)[project].root.value.identity == r.binding.root.value.identity)
                || (adopted.Some? && adopted.value.identity == r.binding.root.value.identity)
    {
      hide Sound, AllPinned, Disjoint, Nested, Pins, Clear, Gathers, AllOf, RootPlace, Stable, Fits, Owned;
      StableReflexive(tree);
      if checkout.Some? { RootIsWanted(tree, checkout.value, request); }
      if luck.canceledFirst {
        return Refused(InvalidPath);
      }
      if project !in bindings && |bindings| >= MaxBindings {
        return Refused(InvalidPolicy);
      }
      if checkout.None? || checkout.value !in tree.dirs {
        return Refused(InvalidPath);
      }
      var pin := Pin(checkout.value, tree.dirs[checkout.value]);
      var place := LocateRoot(checkout.value, request);
      if place.None? {
        return Refused(InvalidPath);
      }
      var (parent, leaf) := place.value;
      var root := parent + [leaf];
      if Reused(bindings, project, revision, checkout.value, root) {
        return Refused(InvalidPolicy);
      }
      var clear, pins := OtherPins(project, pin);
      if clear {
        clear := RootClear(parent, leaf, pins);
        ClearRoot(bindings, project, pin, root, pins);
      }
      ClearFits(bindings, project, pin, root);
      if !clear {
        return Refused(InvalidPolicy);
      }
      r := Create(project, revision, pin, root, adopted, luck);
    }

    /** When apply binds, spelled out: neither path lies in, or around, the other or a path of another
        project, and an existing root that holds anything is the project's own or the adopted one. */
    lemma BindableIsSpelledOut(project: string, revision: string, checkout: Option<Path>, request: RootRequest,
                               adopted: Option<Pin>, luck: Luck)
      requires Valid()
      ensures Bindable(project, revision, checkout, request, adopted, luck) <==>
              && !luck.canceledFirst && !luck.canceledSecond && !luck.canceledLast
              && (project in bindings || |bindings| < 128)
              && checkout.Some? && checkout.value in tree.dirs
              && WantedRoot(checkout.value, request).Some?
              && (request.Below? ==> request.parent.value in tree.dirs)
              && var c, root := checkout.value, WantedRoot(checkout.value, request).value;
                 && root !in tree.files && !(c <= root) && !(root <= c)
                 && (project in bindings && bindings[project].revision == revision ==>
                       bindings[project].checkout.path == c && bindings[project].root.value.path == root)
                 && (forall id | id in bindings && id != project ::
                       && !(c <= bindings[id].checkout.path) && !(bindings[id].checkout.path <= c)
                       && !(c <= bindings[id].root.value.path) && !(bindings[id].root.value.path <= c)
                       && !(root <= bindings[id].checkout.path) && !(bindings[id].checkout.path <= root)
                       && !(root <= bindings[id].root.value.path) && !(bindings[id].root.value.path <= root))
                 && (if root !in tree.dirs then luck.mkdir && luck.identity !in tree.dirs.Values
                     else
                       root in tree.full ==>
                         || (project in bindings && bindings[project].root.value.identity == tree.dirs[root])
                         || (adopted.Some? && adopted.value.identity == tree.dirs[root]))
    {
      hide Sound, AllPinned, RootPlace, WantedRoot, Fits, Disjoint;
      RootsExist(bindings);
      if checkout.Some? {
        RootIsWanted(tree, checkout.value, request);
        if WantedRoot(checkout.value, request).Some? {
          FitsIsSpelledOut(bindings, project, checkout.value, WantedRoot(checkout.value, request).value);
        }
      }
    }

    /** No path of one project lies in, or around, a path of another, and none of its own two. */
    lemma PathsNeverNest(a: string, b: string)
      requires Valid() && a in bindings && b in bindings
      ensures bindings[a].root.Some? && bindings[b].root.Some?
      ensures var x, y := bindings[a], bindings[b];
              && !(x.checkout.path <= x.root.value.path) && !(x.root.value.path <= x.checkout.path)
              && (a != b ==>
                    && !(x.checkout.path <= y.checkout.path) && !(x.checkout.path <= y.root.value.path)
                    && !(x.root.value.path <= y.checkout.path) && !(x.root.value.path <= y.root.value.path))
    {
      assert Proper(bindings[a]) && Proper(bindings[b]);
      if a != b {
        assert Apart(bindings[a], bindings[b]);
        assert bindings[a].checkout in Pins(bindings[a]) && bindings[a].root.value in Pins(bindings[a]);
        assert bindings[b].checkout in Pins(bindings[b]) && bindings[b].root.value in Pins(bindings[b]);
      }
    }

    // The end of apply: ownership of an existing root, mkdir of a missing one, and the new binding.
    method Create(project: string, revision: string, pin: Pin, root: Path, adopted: Option<Pin>, luck: Luck)
      returns (r: Reply)
      requires Valid() && Pinned(tree, pin) && root != [] && root[..|root| - 1] in tree.dirs && root !in tree.files
      requires project in bindings || |bindings| < MaxBindings
      requires Fits(bindings, project, pin.path, root)
      modifies this`bindings, this`tree
      ensures Valid() && Stable(old(tree), tree)
      ensures r.Bound? <==>
                && !luck.canceledSecond && !luck.canceledLast
                && old(if root in tree.dirs then
                         Owned(bindings, project, adopted, tree.dirs[root]) || root !in tree.full
                       else luck.mkdir && luck.identity !in tree.dirs.Values)
      ensures r.Refused? ==> bindings == old(bindings)
      ensures r.Bound? ==>
                && bindings == old(bindings)[project := r.binding] && r.binding.revision == revision
                && r.binding.checkout == pin && r.binding.root.Some?
                && r.binding.root.value.path == root
                && r.binding.root.value.identity ==
                   (if root in old(tree).dirs then old(tree).dirs[root] else luck.identity)
      ensures r.Bound? && root in old(tree).dirs && root in old(tree).full ==>
                || (&& project in old(bindings) && old(bindings)[project].root.Some?
                    && old(bindings)[project].root.value.identity == r.binding.root.value.identity)
                || (adopted.Some? && adopted.value.identity == r.binding.root.value.identity)
    {
      hide Sound, AllPinned, Disjoint, Fits;
      StableReflexive(tree);
      if root in tree.dirs && !Owned(bindings, project, adopted, tree.dirs[root]) && root in tree.full {
        return Refused(InvalidPath);
      }
      if luck.canceledSecond {
        return Refused(InvalidPath);
      }
      if root !in tree.dirs {
        var made := MakeRoot(root, luck);
        if !made {
          return Refused(InvalidPath);
        }
      }
      if luck.canceledLast {
        return Refused(InvalidPath);
      }
      var b := Binding(revision, pin, Some(Pin(root, tree.dirs[root])));
      BoundStays(tree, bindings, project, b);
      bindings := bindings[project := b];
      r := Bound(b);
    }

    // The request that names a legacy binding's root again; None is a root without a name.
    function LegacyRequest(legacy: Binding): Option<RootRequest> {
      if legacy.root.None? then Some(DefaultRoot)
      else
        var path := legacy.root.value.path;
        if path == [] then None else Some(Below(Some(path[..|path| - 1]), path[|path| - 1]))
    }

    // When AdoptLegacy binds: the pins still hold, and apply would bind the same paths.
    ghost predicate Adoptable(project: string, legacy: Binding, luck: Luck)
      reads this
    {
      && BindingPinned(tree, legacy) && LegacyRequest(legacy).Some?
      && Bindable(project, legacy.revision, Some(legacy.checkout.path), LegacyRequest(legacy).value, legacy.root, luck)
    }

    /** AdoptLegacy: the original pins must still validate; ownership of a nonempty root moves over. */
    method AdoptLegacy(project: string, legacy: Binding, luck: Luck) returns (r: Reply)
      requires Valid()
      modifies this`bindings, this`tree
      ensures Valid() && Stable(old(tree), tree)
      ensures r.Bound? <==> old(Adoptable(project, legacy, luck))
      ensures r.Refused? ==> bindings == old(bindings)
      ensures r.Bound? ==>
                && bindings == old(bindings)[project := r.binding] && r.binding.revision == legacy.revision
                && r.binding.checkout.path == legacy.checkout.path
    {
      hide Sound, AllPinned, Disjoint, Stable;
      StableReflexive(tree);
      if !BindingPinned(tree, legacy) {
        return Refused(InvalidPath);
      }
      var request := LegacyRequest(legacy);
      if request.None? {
        return Refused(InvalidPath);
      }
      r := Apply(project, legacy.revision, Some(legacy.checkout.path), request.value, legacy.root, luck);
    }

    /** RestoreOwnership: a cached success is revalidated against the tree and adopted. */
    method RestoreOwnership(project: string, revision: string, checkout: Option<Path>, root: Option<Path>, luck: Luck)
      returns (r: Reply)
      requires Valid()
      modifies this`bindings, this`tree
      ensures Valid() && Stable(old(tree), tree)
      ensures r.Bound? <==>
                && checkout.Some? && checkout.value in old(tree).dirs && root.Some? && root.value in old(tree).dirs
                && old(Adoptable(project, Seen(tree, revision, checkout.value, root.value), luck))
      ensures r.Refused? ==> bindings == old(bindings)
      ensures r.Bound? ==>
                && bindings == old(bindings)[project := r.binding] && r.binding.revision == revision
                && checkout == Some(r.binding.checkout.path)
    {
      hide Sound, AllPinned, Disjoint, Stable;
      StableReflexive(tree);
      if checkout.None? || checkout.value !in tree.dirs || root.None? || root.value !in tree.dirs {
        return Refused(InvalidPath);
      }
      r := AdoptLegacy(project, Seen(tree, revision, checkout.value, root.value), luck);
    }
  }

  lemma StableReflexive(t: Tree)
    ensures Stable(t, t)
  {
  }

  lemma StableOn(a: Tree, b: Tree, c: Tree)
    requires Stable(a, b) && Stable(b, c)
    ensures Stable(a, c)
  {
  }

  // The binding of these paths, with the identities they have now.
  function Seen(t: Tree, revision: string, checkout: Path, root: Path): Binding
    requires checkout in t.dirs && root in t.dirs
  {
    Binding(revision, Pin(checkout, t.dirs[checkout]), Some(Pin(root, t.dirs[root])))
  }

  // Where the root goes.
  function RootPlace(t: Tree, checkout: Path, request: RootRequest): Option<(Path, string)> {
    var place := match request
      case DefaultRoot =>
        Some(if checkout == [] then ([], "-worktrees")
             else (checkout[..|checkout| - 1], checkout[|checkout| - 1] + "-worktrees"))
      case Below(p, name) => if p.None? || p.value !in t.dirs then None else Some((p.value, name));
    if place.Some? && place.value.0 + [place.value.1] in t.files then None else place
  }

  // The root that is asked for: the checkout's sibling, or the name below the requested parent.
  function WantedRoot(checkout: Path, request: RootRequest): Option<Path> {
    match request
    case DefaultRoot =>
      Some(if checkout == [] then ["-worktrees"]
           else checkout[..|checkout| - 1] + [checkout[|checkout| - 1] + "-worktrees"])
    case Below(p, name) => if p.Some? then Some(p.value + [name]) else None
  }

  // It can be located if its parent is there and nothing but a directory is in its place.
  lemma RootIsWanted(t: Tree, checkout: Path, request: RootRequest)
    ensures RootPlace(t, checkout, request).Some? <==>
            && WantedRoot(checkout, request).Some? && WantedRoot(checkout, request).value !in t.files
            && (request.Below? ==> request.parent.value in t.dirs)
    ensures RootPlace(t, checkout, request).Some? ==>
              var (parent, leaf) := RootPlace(t, checkout, request).value;
              WantedRoot(checkout, request) == Some(parent + [leaf])
  {
    assert [] + ["-worktrees"] == ["-worktrees"];
  }

  // A revision is not used again for other paths.
  predicate Reused(bindings: map<string, Binding>, project: string, revision: string, checkout: Path, root: Path) {
    && project in bindings && bindings[project].revision == revision
    && (bindings[project].checkout.path != checkout || bindings[project].root.None?
        || bindings[project].root.value.path != root)
  }

  // The existing root is the project's own, or the adopted binding's.
  predicate Owned(bindings: map<string, Binding>, project: string, adopted: Option<Pin>, identity: nat) {
    || (project in bindings && bindings[project].root.Some? && bindings[project].root.value.identity == identity)
    || (adopted.Some? && adopted.value.identity == identity)
  }

  // A path that is apart from these pins.
  predicate Clear(p: Path, pins: seq<Pin>) {
    forall k | 0 <= k < |pins| :: !Nested(p, pins[k].path)
  }

  // The checkout and the root are apart from each other and from every other project's pins.
  ghost predicate Fits(bindings: map<string, Binding>, project: string, checkout: Path, root: Path) {
    && !Nested(checkout, root)
    && forall id | id in bindings && id != project ::
         Clear(checkout, Pins(bindings[id])) && Clear(root, Pins(bindings[id]))
  }

  // Exactly the checkout and the pins of these projects were collected.
  ghost predicate Gathers(pins: seq<Pin>, checkout: Pin, bindings: map<string, Binding>, ids: set<string>) {
    forall p :: p in pins <==> p == checkout || exists id | id in ids && id in bindings :: p in Pins(bindings[id])
  }

  lemma GatherNone(t: Tree, checkout: Pin, bindings: map<string, Binding>)
    requires Pinned(t, checkout)
    ensures AllOf(t, [checkout]) && Gathers([checkout], checkout, bindings, {})
  {
  }

  lemma GatherMore(pins: seq<Pin>, checkout: Pin, bindings: map<string, Binding>, ids: set<string>, id: string)
    requires Gathers(pins, checkout, bindings, ids) && id in bindings
    ensures Gathers(pins + Pins(bindings[id]), checkout, bindings, ids + {id})
  {
    hide Pins;
    forall p
      ensures p in pins + Pins(bindings[id]) <==>
              p == checkout || exists k | k in ids + {id} && k in bindings :: p in Pins(bindings[k])
    {
      if p in Pins(bindings[id]) { assert id in ids + {id}; }
    }
  }

  // Apart from all collected pins: apart from the checkout and from every other project's pins.
  lemma ClearRoot(bindings: map<string, Binding>, project: string, pin: Pin, root: Path, pins: seq<Pin>)
    requires Gathers(pins, pin, bindings, bindings.Keys - {project})
    ensures Clear(root, pins) <==>
            !Nested(root, pin.path) && forall id | id in bindings && id != project :: Clear(root, Pins(bindings[id]))
  {
    hide Pins, Nested;
    if Clear(root, pins) {
      assert pin in pins;
      var at :| 0 <= at < |pins| && pins[at] == pin;
      forall id | id in bindings && id != project ensures Clear(root, Pins(bindings[id])) {
        var theirs := Pins(bindings[id]);
        forall k | 0 <= k < |theirs| ensures !Nested(root, theirs[k].path) {
          assert theirs[k] in theirs && id in bindings.Keys - {project};
          assert theirs[k] in pins;
          var i :| 0 <= i < |pins| && pins[i] == theirs[k];
        }
      }
    }
    if !Nested(root, pin.path) && forall id | id in bindings && id != project :: Clear(root, Pins(bindings[id])) {
      forall k | 0 <= k < |pins| ensures !Nested(root, pins[k].path) {
        assert pins[k] in pins;
        if pins[k] != pin {
          var id :| id in bindings.Keys - {project} && id in bindings && pins[k] in Pins(bindings[id]);
          assert Clear(root, Pins(bindings[id]));
          var i :| 0 <= i < |Pins(bindings[id])| && Pins(bindings[id])[i] == pins[k];
        }
      }
    }
  }

  lemma RootsExist(bindings: map<string, Binding>)
    requires Disjoint(bindings)
    ensures forall id | id in bindings :: bindings[id].root.Some?
  {
    hide Apart, Nested;
  }

  lemma ClearOfBoth(p: Path, b: Binding)
    requires b.root.Some?
    ensures Clear(p, Pins(b)) <==> !Nested(p, b.checkout.path) && !Nested(p, b.root.value.path)
  {
    hide Nested;
    assert Pins(b)[0] == b.checkout && Pins(b)[1] == b.root.value;
  }

  lemma FitsIsSpelledOut(bindings: map<string, Binding>, project: string, c: Path, root: Path)
    requires forall id | id in bindings :: bindings[id].root.Some?
    ensures Fits(bindings, project, c, root) <==>
            && !(c <= root) && !(root <= c)
            && (forall id | id in bindings && id != project ::
                  && !(c <= bindings[id].checkout.path) && !(bindings[id].checkout.path <= c)
                  && !(c <= bindings[id].root.value.path) && !(bindings[id].root.value.path <= c)
                  && !(root <= bindings[id].checkout.path) && !(bindings[id].checkout.path <= root)
                  && !(root <= bindings[id].root.value.path) && !(bindings[id].root.value.path <= root))
  {
    hide Pins, Clear;
    forall id | id in bindings
      ensures Clear(c, Pins(bindings[id])) <==>
              !Nested(c, bindings[id].checkout.path) && !Nested(c, bindings[id].root.value.path)
      ensures Clear(root, Pins(bindings[id])) <==>
              !Nested(root, bindings[id].checkout.path) && !Nested(root, bindings[id].root.value.path)
    {
      ClearOfBoth(c, bindings[id]);
      ClearOfBoth(root, bindings[id]);
    }
  }

  lemma ClearFits(bindings: map<string, Binding>, project: string, pin: Pin, root: Path)
    ensures Fits(bindings, project, pin.path, root) <==>
            && (forall id | id in bindings && id != project :: Clear(pin.path, Pins(bindings[id])))
            && !Nested(root, pin.path)
            && (forall id | id in bindings && id != project :: Clear(root, Pins(bindings[id])))
  {
  }

  lemma FitsApart(bindings: map<string, Binding>, project: string, b: Binding, id: string)
    requires b.root.Some? && Fits(bindings, project, b.checkout.path, b.root.value.path) && id in bindings
    requires id != project
    ensures Apart(b, bindings[id]) && Apart(bindings[id], b)
  {
    var theirs := Pins(bindings[id]);
    forall q | q in theirs ensures !Nested(b.checkout.path, q.path) && !Nested(b.root.value.path, q.path) {
      var k :| 0 <= k < |theirs| && theirs[k] == q;
    }
  }

  lemma PutApart(bindings: map<string, Binding>, project: string, b: Binding)
    requires Disjoint(bindings) && Proper(b)
    requires forall id | id in bindings && id != project :: Apart(b, bindings[id]) && Apart(bindings[id], b)
    ensures Disjoint(bindings[project := b])
  {
    hide Apart, Proper;
  }

  lemma PutSize(bindings: map<string, Binding>, project: string, b: Binding)
    ensures |bindings[project := b]| <= if project in bindings then |bindings| else |bindings| + 1
  {
    assert bindings[project := b].Keys == bindings.Keys + {project};
    assert |bindings[project := b]| == |bindings[project := b].Keys| && |bindings| == |bindings.Keys|;
  }

  lemma PutPinned(t: Tree, bindings: map<string, Binding>, project: string, b: Binding)
    requires AllPinned(t, bindings) && BindingPinned(t, b)
    ensures AllPinned(t, bindings[project := b])
  {
    hide BindingPinned;
  }

  lemma BoundStays(t: Tree, bindings: map<string, Binding>, project: string, b: Binding)
    requires AllPinned(t, bindings) && Disjoint(bindings) && BindingPinned(t, b)
    requires b.root.Some? && Fits(bindings, project, b.checkout.path, b.root.value.path)
    requires |bindings| <= MaxBindings && (project in bindings || |bindings| < MaxBindings)
    ensures AllPinned(t, bindings[project := b]) && Disjoint(bindings[project := b])
    ensures |bindings[project := b]| <= MaxBindings
  {
    assert Proper(b);
    hide Apart, Proper, BindingPinned, Fits, Disjoint, Nested, AllPinned;
    forall id | id in bindings && id != project ensures Apart(b, bindings[id]) && Apart(bindings[id], b) {
      FitsApart(bindings, project, b, id);
    }
    PutApart(bindings, project, b);
    PutPinned(t, bindings, project, b);
    PutSize(bindings, project, b);
  }

  lemma GrownTree(t: Tree, root: Path, identity: nat, bindings: map<string, Binding>)
    requires Sound(t) && AllPinned(t, bindings) && root != [] && root[..|root| - 1] in t.dirs
    requires root !in t.dirs && root !in t.files && identity !in t.dirs.Values
    ensures var next := t.(dirs := t.dirs[root := identity]);
            Sound(next) && Stable(t, next) && AllPinned(next, bindings)
  {
  }

  predicate AllOf(t: Tree, pins: seq<Pin>) {
    forall i | 0 <= i < |pins| :: Pinned(t, pins[i])
  }

  lemma PinsArePinned(t: Tree, bindings: map<string, Binding>, id: string)
    requires AllPinned(t, bindings) && id in bindings
    ensures AllOf(t, Pins(bindings[id]))
  {
    assert BindingPinned(t, bindings[id]);
  }
}
