/** What setup writes into a tailnet policy, and how it is taken out again. */
module Setup {
  import opened Messages
  import opened Json
  import opened Text
  import opened Policy
  import opened Cleanup

  const MeshPort := 50052

  const Roles: seq<string> := [ServerTag, NodeTag, ClientTag]

  // The validated options: an owner, and the dashboard's port if there is one.
  datatype Options = Options(owner: string, dashboard: Option<nat>)

  // Options.Normalize
  predicate ValidOptions(o: Options) {
    && o.owner != ""
    && (o.dashboard.Some? ==> 1 <= o.dashboard.value <= 65535 && o.dashboard.value != MeshPort)
  }

  /******* Owners *******/

  function SectionKey(f: Fields): string {
    if "tagowners" in f then "tagowners" else "tagOwners"
  }

  // The owner is added to the tag's list unless it is there; None for anything but a list.
  function WithOwner(owners: Fields, tag: string, owner: string): Option<Fields> {
    if tag !in owners then Some(owners[tag := List([Text(owner)])])
    else if !owners[tag].List? then None
    else if Text(owner) in owners[tag].items then Some(owners)
    else Some(owners[tag := List(owners[tag].items + [Text(owner)])])
  }

  function WithOwners(owners: Fields, tags: seq<string>, owner: string): Option<Fields> {
    if tags == [] then Some(owners)
    else
      match WithOwners(owners, tags[..|tags| - 1], owner)
      case None => None
      case Some(next) => WithOwner(next, tags[|tags| - 1], owner)
  }

  /******* Grants *******/

  function Grant(source: string, port: nat): Json {
    Object(map["src" := List([Text(source)]), "dst" := List([Text(ServerTag)]),
               "ip" := List([Text("tcp:" + Decimal(port))])])
  }

  predicate Routes(grant: Json, source: string, port: nat) {
    && grant.Object?
    && Single(Get(grant.fields, "src")) == Some(source) && Single(Get(grant.fields, "dst")) == Some(ServerTag)
    && Single(Get(grant.fields, "ip")) == Some("tcp:" + Decimal(port))
  }

  function WithGrant(grants: seq<Json>, source: string, port: nat): seq<Json> {
    if exists i | 0 <= i < |grants| :: Routes(grants[i], source, port) then grants else grants + [Grant(source, port)]
  }

  function WithGrants(grants: seq<Json>, o: Options): seq<Json> {
    var mesh := WithGrant(WithGrant(grants, NodeTag, MeshPort), ClientTag, MeshPort);
    if o.dashboard.Some? then WithGrant(mesh, "*", o.dashboard.value) else mesh
  }

  // mergePolicy
  function Merged(f: Fields, o: Options): Option<Fields> {
    var key := SectionKey(f);
    if "tagowners" in f && "tagOwners" in f then None
    else if key in f && !f[key].Object? then None
    else
      match WithOwners(if key in f then f[key].fields else map[], Roles, o.owner)
      case None => None
      case Some(owners) =>
        if "grants" in f && !f["grants"].List? then None
        else Some(f[key := Object(owners)]["grants" :=
                  List(WithGrants(if "grants" in f then f["grants"].items else [], o))])
  }

  /******* The edits *******/

  // The loop over the owners of one tag.
  method HasOwner(items: seq<Json>, owner: string) returns (found: bool)
    ensures found <==> Text(owner) in items
  {
    found := false;
    for i := 0 to |items|
      invariant found <==> Text(owner) in items[..i]
    {
      if items[i] == Text(owner) {
        found := true;
      }
    }
    assert items[..|items|] == items;
  }

  method AddGrant(grants: seq<Json>, source: string, port: nat) returns (next: seq<Json>)
    ensures next == WithGrant(grants, source, port)
  {
    for i := 0 to |grants|
      invariant forall k | 0 <= k < i :: !Routes(grants[k], source, port)
    {
      if Routes(grants[i], source, port) {
        return grants;
      }
    }
    next := grants + [Grant(source, port)];
  }

  // The loop over the roles.
  method AddOwners(owners: Fields, owner: string) returns (r: Option<Fields>)
    ensures r == WithOwners(owners, Roles, owner)
  {
    var next := owners;
    for i := 0 to |Roles|
      invariant WithOwners(owners, Roles[..i], owner) == Some(next)
    {
      assert Roles[..i + 1][..i] == Roles[..i];
      var tag := Roles[i];
      if tag !in next {
        next := next[tag := List([Text(owner)])];
      } else if !next[tag].List? {
        MissingOwners(owners, i + 1, owner);
        return None;
      } else {
        var found := HasOwner(next[tag].items, owner);
        if !found {
          next := next[tag := List(next[tag].items + [Text(owner)])];
        }
      }
    }
    assert Roles[..|Roles|] == Roles;
    r := Some(next);
  }

  lemma MissingOwners(owners: Fields, i: nat, owner: string)
    requires i <= |Roles| && WithOwners(owners, Roles[..i], owner).None?
    ensures WithOwners(owners, Roles, owner).None?
    decreases |Roles| - i
  {
    if i < |Roles| {
      assert Roles[..i + 1][..i] == Roles[..i];
      MissingOwners(owners, i + 1, owner);
    } else {
      assert Roles[..i] == Roles;
    }
  }

  // mergePolicy's edits, in the order the code makes them.
  method MergePolicy(f: Fields, o: Options) returns (r: Option<Fields>)
    ensures r == Merged(f, o)
  {
    var policy, key := f, "tagOwners";
    if "tagowners" in policy {
      if key in policy {
        return None;
      }
      key := "tagowners";
    }
    var section: Fields := map[];
    if key in policy {
      if !policy[key].Object? {
        return None;
      }
      section := policy[key].fields;
    }
    var owners := AddOwners(section, o.owner);
    if owners.None? {
      return None;
    }
    policy := policy[key := Object(owners.value)];
    var grants := [];
    if "grants" in policy {
      if !policy["grants"].List? {
        return None;
      }
      grants := policy["grants"].items;
    }
    grants := AddGrant(grants, NodeTag, MeshPort);
    grants := AddGrant(grants, ClientTag, MeshPort);
    if o.dashboard.Some? {
      grants := AddGrant(grants, "*", o.dashboard.value);
    }
    r := Some(policy["grants" := List(grants)]);
  }

  /******* What is written *******/

  // What setup makes of the owners of one tag.
  function Owned(owners: Fields, tag: string, owner: string): Json {
    if tag !in owners then List([Text(owner)])
    else if owners[tag].List? && Text(owner) !in owners[tag].items then List(owners[tag].items + [Text(owner)])
    else owners[tag]
  }

  /** The owners are written exactly if no role has anything but a list; then every role has its owners,
      with the new one at the end unless it was among them, and no other tag changes. */
  lemma OwnersAreWritten(owners: Fields, owner: string)
    ensures WithOwners(owners, Roles, owner).Some? <==>
            forall t | t in owners && ManagedTag(t) :: owners[t].List?
    ensures WithOwners(owners, Roles, owner).Some? ==>
              var next := WithOwners(owners, Roles, owner).value;
              && next.Keys == owners.Keys + {ServerTag, NodeTag, ClientTag}
              && forall t | t in next :: next[t] == if ManagedTag(t) then Owned(owners, t, owner) else owners[t]
  {
    hide Owned, WithOwners;
    DistinctRoles();
    ThreeOwners(owners, ServerTag, NodeTag, ClientTag, owner);
  }

  lemma OwnersStepwise(owners: Fields, a: string, b: string, c: string, owner: string)
    ensures var first := WithOwner(owners, a, owner);
            var second := if first.Some? then WithOwner(first.value, b, owner) else None;
            WithOwners(owners, [a, b, c], owner) ==
            if second.Some? then WithOwner(second.value, c, owner) else None
  {
    hide WithOwner;
    assert [a, b, c][..2] == [a, b] && [a, b][..1] == [a] && [a][..0] == [];
    assert WithOwners(owners, [], owner) == Some(owners);
    assert WithOwners(owners, [a], owner) == WithOwner(owners, a, owner);
  }

  lemma ThreeOwners(owners: Fields, a: string, b: string, c: string, owner: string)
    requires a != b && b != c && a != c
    ensures WithOwners(owners, [a, b, c], owner).Some? <==>
            forall t | t in owners && t in {a, b, c} :: owners[t].List?
    ensures WithOwners(owners, [a, b, c], owner).Some? ==>
              var next := WithOwners(owners, [a, b, c], owner).value;
              && next.Keys == owners.Keys + {a, b, c}
              && forall t | t in next :: next[t] == if t in {a, b, c} then Owned(owners, t, owner) else owners[t]
  {
    OwnersStepwise(owners, a, b, c, owner);
    OneOwnerIsWritten(owners, a, owner);
    var first := WithOwner(owners, a, owner);
    hide WithOwner, Owned, WithOwners;
    if first.Some? {
      OneOwnerIsWritten(first.value, b, owner);
      SameOwned(owners, first.value, b, owner);
      var second := WithOwner(first.value, b, owner);
      if second.Some? {
        OneOwnerIsWritten(second.value, c, owner);
        SameOwned(owners, second.value, c, owner);
      }
    }
  }

  lemma DistinctRoles()
    ensures ServerTag != NodeTag && NodeTag != ClientTag && ServerTag != ClientTag
  {
    assert ServerTag[15] != NodeTag[15] && NodeTag[15] != ClientTag[15] && ServerTag[15] != ClientTag[15];
  }

  lemma OneOwnerIsWritten(owners: Fields, tag: string, owner: string)
    ensures WithOwner(owners, tag, owner).Some? <==> (tag in owners ==> owners[tag].List?)
    ensures WithOwner(owners, tag, owner).Some? ==>
              var next := WithOwner(owners, tag, owner).value;
              && next.Keys == owners.Keys + {tag}
              && forall t | t in next :: next[t] == if t == tag then Owned(owners, t, owner) else owners[t]
  {
  }

  lemma SameOwned(a: Fields, b: Fields, tag: string, owner: string)
    requires tag in a <==> tag in b
    requires tag in a ==> a[tag] == b[tag]
    ensures Owned(a, tag, owner) == Owned(b, tag, owner)
  {
  }

  /** The grants that setup may have appended are exactly these: the node on the mesh port, a client on
      any port, and anyone on any other. */
  lemma AppendedGrantsAreThese(grant: Json)
    ensures AppendedGrant(grant) <==>
            || grant == Grant(NodeTag, 50052)
            || exists port: nat | 1 <= port <= 65535 ::
                 grant == Grant(ClientTag, port) || (port != 50052 && grant == Grant("*", port))
  {
    if AppendedGrant(grant) {
      var port: nat :| 1 <= port <= 65535 && GrantFor(grant, port);
      var source := Single(Get(grant.fields, "src")).value;
      GrantIsThis(grant, source, port);
    }
    GrantIsAppendable(NodeTag, 50052);
    forall port: nat | 1 <= port <= 65535
      ensures AppendedGrant(Grant(ClientTag, port)) && (port != 50052 ==> AppendedGrant(Grant("*", port)))
    {
      GrantIsAppendable(ClientTag, port);
      if port != 50052 { GrantIsAppendable("*", port); }
    }
  }

  lemma GrantIsAppendable(source: string, port: nat)
    requires 1 <= port <= 65535 && source in {NodeTag, ClientTag, "*"}
    requires (source == NodeTag ==> port == 50052) && (source == "*" ==> port != 50052)
    ensures AppendedGrant(Grant(source, port))
  {
    assert GrantFor(Grant(source, port), port);
  }

  lemma DistinctSources()
    ensures NodeTag != ClientTag && NodeTag != "*" && ClientTag != "*"
  {
    assert NodeTag[15] != ClientTag[15];
  }

  lemma GrantIsThis(grant: Json, source: string, port: nat)
    requires GrantFor(grant, port) && Single(Get(grant.fields, "src")) == Some(source)
    ensures grant == Grant(source, port)
  {
    var f := grant.fields;
    assert "src" in f && "dst" in f && "ip" in f;
    assert "src"[0] != "dst"[0] && "dst"[0] != "ip"[0] && "src"[0] != "ip"[0];
    OnlyThree(f, "src", "dst", "ip");
    assert f["src"].items == [Text(source)] && f["dst"].items == [Text(ServerTag)];
    assert f["ip"].items == [Text("tcp:" + Decimal(port))];
    assert f == Grant(source, port).fields;
  }

  lemma OnlyThree(f: Fields, a: string, b: string, c: string)
    requires |f| == 3 && a in f && b in f && c in f && a != b && b != c && a != c
    ensures f.Keys == {a, b, c}
  {
    var rest := f.Keys - {a, b, c};
    assert f.Keys == {a, b, c} + rest && |f.Keys| == 3 + |rest|;
  }

  // Grants appended to the old ones: each may be, none repeats a route, one at most is a dashboard's.
  predicate Grown(base: seq<Json>, grants: seq<Json>, n: nat, dashboard: bool) {
    && |base| <= |grants| <= |base| + n && grants[..|base|] == base
    && (forall i | |base| <= i < |grants| :: AppendedGrant(grants[i]))
    && (forall i, j | |base| <= i < |grants| && 0 <= j < i :: !SameRoute(grants[i], grants[j]))
    && (forall i, j | |base| <= i < j < |grants| :: !(Dashboard(grants[i]) && Dashboard(grants[j])))
    && (!dashboard ==> forall i | |base| <= i < |grants| :: !Dashboard(grants[i]))
  }

  lemma GrantIsAppended(base: seq<Json>, grants: seq<Json>, n: nat, source: string, port: nat)
    requires Grown(base, grants, n, false) && 1 <= port <= 65535
    requires if port == MeshPort then source in {NodeTag, ClientTag} else source == "*"
    ensures Grown(base, WithGrant(grants, source, port), n + 1, port != MeshPort)
  {
    var grant, next := Grant(source, port), WithGrant(grants, source, port);
    DistinctSources();
    assert GrantFor(grant, port);
    assert AppendedGrant(grant);
    forall j | 0 <= j < |grants| && SameRoute(grant, grants[j]) ensures Routes(grants[j], source, port) {
    }
    hide AppendedGrant, SameRoute, Routes, Decimal, Grant;
    if next != grants {
      assert next == grants + [grant] && next[..|base|] == base;
    }
  }

  lemma GrantsGrow(base: seq<Json>, o: Options)
    requires ValidOptions(o)
    ensures Grown(base, WithGrants(base, o), 3, true)
  {
    assert base[..|base|] == base;
    assert Grown(base, base, 0, false);
    hide Grown, WithGrant;
    GrantIsAppended(base, base, 0, NodeTag, MeshPort);
    var first := WithGrant(base, NodeTag, MeshPort);
    GrantIsAppended(base, first, 1, ClientTag, MeshPort);
    var second := WithGrant(first, ClientTag, MeshPort);
    if o.dashboard.Some? { GrantIsAppended(base, second, 2, "*", o.dashboard.value); }
  }

  lemma RouteStays(grants: seq<Json>, source: string, port: nat, other: string, at: nat)
    ensures exists i | 0 <= i < |WithGrant(grants, source, port)| ::
              Routes(WithGrant(grants, source, port)[i], source, port)
    ensures (exists i | 0 <= i < |grants| :: Routes(grants[i], other, at)) ==>
              exists i | 0 <= i < |WithGrant(grants, source, port)| ::
                Routes(WithGrant(grants, source, port)[i], other, at)
  {
    var next := WithGrant(grants, source, port);
    if next != grants {
      assert Routes(next[|grants|], source, port);
      assert forall i | 0 <= i < |grants| :: next[i] == grants[i];
    }
  }

  /** The grants that were there stay, in front; after it nodes and clients reach the mesh port and
      everyone the dashboard, and nothing else is granted. */
  lemma AccessIsGranted(base: seq<Json>, o: Options)
    ensures var next := WithGrants(base, o);
            && (exists i | 0 <= i < |next| :: Routes(next[i], NodeTag, 50052))
            && (exists i | 0 <= i < |next| :: Routes(next[i], ClientTag, 50052))
            && (o.dashboard.Some? ==> exists i | 0 <= i < |next| :: Routes(next[i], "*", o.dashboard.value))
            && base <= next
            && forall i | |base| <= i < |next| ::
                 || next[i] == Grant(NodeTag, 50052) || next[i] == Grant(ClientTag, 50052)
                 || (o.dashboard.Some? && next[i] == Grant("*", o.dashboard.value))
  {
    hide Routes, Grant;
    RouteStays(base, NodeTag, MeshPort, NodeTag, MeshPort);
    var first := WithGrant(base, NodeTag, MeshPort);
    RouteStays(first, ClientTag, MeshPort, NodeTag, MeshPort);
    var second := WithGrant(first, ClientTag, MeshPort);
    assert base <= first <= second;
    if o.dashboard.Some? {
      RouteStays(second, "*", o.dashboard.value, NodeTag, MeshPort);
      RouteStays(second, "*", o.dashboard.value, ClientTag, MeshPort);
      assert second <= WithGrants(base, o);
    }
  }

  /******* What the snapshot plan accepts *******/

  // Without a section of owners, what is under the empty key is compared with it instead.
  predicate NothingUnnamed(f: Fields, o: Options) {
    OwnersKey(f) == Some("") && "" in f && f[""].Object? ==>
      forall t | t in f[""].fields ::
        ManagedTag(t) && f[""].fields[t].List? && f[""].fields[t].items in {[], [Text(o.owner)]}
  }

  lemma MergedParts(f: Fields, o: Options)
    requires Merged(f, o).Some?
    ensures var g, key := Merged(f, o).value, SectionKey(f);
            && OwnersKey(f).Some? && OwnersKey(f).value == (if key in f then key else "") && OwnersKey(g) == Some(key)
            && (key in f ==> f[key].Object?) && key != "grants"
            && var was := if key in f then f[key].fields else map[];
               && WithOwners(was, Roles, o.owner).Some?
               && g == f[key := Object(WithOwners(was, Roles, o.owner).value)]["grants" := g["grants"]]
               && ("grants" in f ==> f["grants"].List?)
               && g["grants"] == List(WithGrants(if "grants" in f then f["grants"].items else [], o))
  {
    hide WithOwners, WithGrants, Roles;
  }

  lemma OwnersAreSupported(f: Fields, o: Options)
    requires ValidOptions(o) && Merged(f, o).Some?
    ensures SupportedOwners(f, Merged(f, o).value) <==> NothingUnnamed(f, o)
  {
    hide Merged, WithOwners, Roles, ManagedTag, OwnerAllowed;
    MergedParts(f, o);
    var g, key := Merged(f, o).value, SectionKey(f);
    var was := if key in f then f[key].fields else map[];
    var next := WithOwners(was, Roles, o.owner).value;
    assert g[key] == Object(next);
    if key in f {
      SectionIsSupported(was, o.owner);
    } else {
      NewSectionIsSupported(Owners(f, ""), o.owner);
    }
  }

  // The roles' owners are added to a section that is there.
  lemma SectionIsSupported(owners: Fields, owner: string)
    requires WithOwners(owners, Roles, owner).Some? && owner != ""
    ensures var next := WithOwners(owners, Roles, owner).value;
            && (forall t | t in owners :: t in next && (!ManagedTag(t) ==> owners[t] == next[t]))
            && (forall t | t in next :: OwnerAllowed(t, owners, next[t]))
  {
    hide WithOwners, Roles, OwnerAllowed, Owned;
    OwnersAreWritten(owners, owner);
    var next := WithOwners(owners, Roles, owner).value;
    forall t | t in next ensures OwnerAllowed(t, owners, next[t]) {
      if ManagedTag(t) { WrittenIsAllowed(owners, t, owner); } else { SameIsAllowed(owners, t); }
    }
  }

  lemma SameIsAllowed(owners: Fields, tag: string)
    requires tag in owners
    ensures OwnerAllowed(tag, owners, owners[tag])
  {
  }

  // A new section of the roles' owners is compared with what was there instead.
  lemma NewSectionIsSupported(prior: Fields, owner: string)
    requires owner != ""
    ensures WithOwners(map[], Roles, owner).Some?
    ensures var next := WithOwners(map[], Roles, owner).value;
            (&& (forall t | t in prior :: t in next && (!ManagedTag(t) ==> prior[t] == next[t]))
             && (forall t | t in next :: OwnerAllowed(t, prior, next[t]))) <==>
            forall t | t in prior ::
              ManagedTag(t) && prior[t].List? && prior[t].items in {[], [Text(owner)]}
  {
    hide WithOwners, Roles, OwnerAllowed;
    OwnersAreWritten(map[], owner);
    var next := WithOwners(map[], Roles, owner).value;
    assert forall t :: t in next <==> ManagedTag(t);
    forall t | t in next
      ensures OwnerAllowed(t, prior, next[t]) <==>
              (t in prior ==> prior[t].List? && prior[t].items in {[], [Text(owner)]})
    {
      assert next[t] == List([Text(owner)]);
      NewIsAllowed(prior, t, owner);
    }
  }

  lemma WrittenIsAllowed(owners: Fields, tag: string, owner: string)
    requires ManagedTag(tag) && (tag in owners ==> owners[tag].List?) && owner != ""
    ensures OwnerAllowed(tag, owners, Owned(owners, tag, owner))
  {
  }

  lemma NewIsAllowed(owners: Fields, tag: string, owner: string)
    requires ManagedTag(tag) && owner != ""
    ensures OwnerAllowed(tag, owners, List([Text(owner)])) <==>
            (tag in owners ==> owners[tag].List? && owners[tag].items in {[], [Text(owner)]})
  {
  }

  lemma GrantsAreSupported(f: Fields, o: Options)
    requires ValidOptions(o) && Merged(f, o).Some?
    ensures SupportedGrants(f, Merged(f, o).value)
  {
    hide Merged, WithOwners, WithGrants, Roles, AppendedGrant, Dashboard, SameRoute;
    MergedParts(f, o);
    GrantsGrow(if "grants" in f then f["grants"].items else [], o);
  }

  /** What setup writes is what the snapshot plan later accepts as its own additions, exactly unless the
      policy has no section of tag owners and, under the empty key, an object that it then takes for
      one: other tags in there, or other owners, make it refuse. */
  lemma SetupIsSupported(f: Fields, o: Options)
    requires ValidOptions(o) && Merged(f, o).Some?
    ensures SupportedAdditions(f, Merged(f, o).value) <==> NothingUnnamed(f, o)
  {
    hide Merged, WithOwners, Roles, SupportedOwners, SupportedGrants, NothingUnnamed;
    MergedParts(f, o);
    OwnersAreSupported(f, o);
    GrantsAreSupported(f, o);
  }

  // One owner more, at the end, and not among the earlier ones.
  lemma OneMore(tag: string, prior: Fields, next: Json)
    requires OwnerAllowed(tag, prior, next) && next != Get(prior, tag)
    ensures ManagedTag(tag) && (tag in prior ==> prior[tag].List?) && next.List? && next.items != []
    ensures var o := next.items[|next.items| - 1];
            o.Text? && o.text != ""
            && next.items == (if tag in prior then prior[tag].items else []) + [o]
            && (tag in prior ==> o !in prior[tag].items)
  {
    var previous := if tag in prior then prior[tag].items else [];
    assert next.items == next.items[..|previous|] + [next.items[|previous|]];
  }

  /** What is accepted is little more than what setup writes: any change to the owners of a tag adds one
      owner to a role, and the new grants are at most three, with different routes, one of them at most
      not on the mesh port, which leads from anyone or a client to the server. */
  lemma OnlySetupAdds(before: Fields, applied: Fields)
    requires SupportedAdditions(before, applied)
    ensures "grants" in applied ==>
              && applied["grants"].List? && ("grants" in before ==> before["grants"].List?)
              && var base, next := if "grants" in before then before["grants"].items else [], applied["grants"].items;
                 && base <= next && |next| <= |base| + 3
                 && (forall i | |base| <= i < |next| ::
                       || next[i] == Grant(NodeTag, 50052)
                       || exists port: nat | 1 <= port <= 65535 ::
                            next[i] == Grant(ClientTag, port) || (port != 50052 && next[i] == Grant("*", port)))
                 && (forall i, j | |base| <= i < j < |next| ::
                       && next[i] != next[j]
                       && (next[i] in {Grant(NodeTag, 50052), Grant(ClientTag, 50052)}
                           || next[j] in {Grant(NodeTag, 50052), Grant(ClientTag, 50052)}))
    ensures OwnersKey(before).Some? && OwnersKey(applied).Some?
    ensures OwnersKey(applied).value != "" ==>
              var prior, next := Owners(before, OwnersKey(before).value), Owners(applied, OwnersKey(applied).value);
              forall t | t in next && next[t] != Get(prior, t) ::
                && t in {ServerTag, NodeTag, ClientTag} && (t in prior ==> prior[t].List?)
                && next[t].List? && next[t].items != []
                && var o := next[t].items[|next[t].items| - 1];
                   && o.Text? && o.text != "" && next[t].items == (if t in prior then prior[t].items else []) + [o]
                   && (t in prior ==> o !in prior[t].items)
  {
    hide AppendedGrant, OwnerAllowed, Dashboard, SameRoute, Grant;
    if "grants" in applied {
      var base, next := if "grants" in before then before["grants"].items else [], applied["grants"].items;
      forall i | |base| <= i < |next|
        ensures || next[i] == Grant(NodeTag, 50052)
                || exists port: nat | 1 <= port <= 65535 ::
                     next[i] == Grant(ClientTag, port) || (port != 50052 && next[i] == Grant("*", port))
      {
        AppendedGrantsAreThese(next[i]);
      }
      forall i, j | |base| <= i < j < |next|
        ensures && next[i] != next[j]
                && (next[i] in {Grant(NodeTag, 50052), Grant(ClientTag, 50052)}
                    || next[j] in {Grant(NodeTag, 50052), Grant(ClientTag, 50052)})
      {
        assert !SameRoute(next[j], next[i]) && !(Dashboard(next[i]) && Dashboard(next[j]));
        TwoAppended(next[i], next[j]);
      }
    }
    if OwnersKey(applied).value != "" {
      var prior, next := Owners(before, OwnersKey(before).value), Owners(applied, OwnersKey(applied).value);
      forall t | t in next && next[t] != Get(prior, t)
        ensures && t in {ServerTag, NodeTag, ClientTag} && (t in prior ==> prior[t].List?)
                && next[t].List? && next[t].items != []
                && var o := next[t].items[|next[t].items| - 1];
                   && o.Text? && o.text != "" && next[t].items == (if t in prior then prior[t].items else []) + [o]
                   && (t in prior ==> o !in prior[t].items)
      {
        OneMore(t, prior, next[t]);
      }
    }
  }

  lemma TwoAppended(a: Json, b: Json)
    requires AppendedGrant(a) && AppendedGrant(b) && !SameRoute(b, a) && !(Dashboard(a) && Dashboard(b))
    ensures a != b
    ensures || a in {Grant(NodeTag, 50052), Grant(ClientTag, 50052)}
            || b in {Grant(NodeTag, 50052), Grant(ClientTag, 50052)}
  {
    hide GrantFor;
    MeshGrant(a);
    MeshGrant(b);
  }

  // A grant on the mesh port.
  lemma MeshGrant(grant: Json)
    requires AppendedGrant(grant)
    ensures grant.Object?
    ensures !Dashboard(grant) ==> grant == Grant(NodeTag, 50052) || grant == Grant(ClientTag, 50052)
  {
    if GrantFor(grant, 50052) {
      var source := Single(Get(grant.fields, "src")).value;
      GrantIsThis(grant, source, 50052);
    }
  }

  /******* There and back *******/

  lemma GrantsAreKept(base: seq<Json>, o: Options)
    requires ValidOptions(o) && Kept(base) == Ok(base)
    ensures Kept(WithGrants(base, o)) == Ok(base)
  {
    hide AppendedGrant, WithGrants, Kept, Dashboard, SameRoute;
    GrantsGrow(base, o);
    var added := WithGrants(base, o)[|base|..];
    forall i | 0 <= i < |added| ensures AppendedGrant(added[i]) {
      assert added[i] == WithGrants(base, o)[|base| + i];
    }
    AllGo(added);
    KeptAppend(base, added);
    assert base + [] == base && base + added == WithGrants(base, o);
  }

  lemma OwnersAreKept(owners: Fields, owner: string)
    requires Unmanaged(owners) == owners && WithOwners(owners, Roles, owner).Some?
    ensures Unmanaged(WithOwners(owners, Roles, owner).value) == owners
  {
    hide WithOwners, Roles;
    OwnersAreWritten(owners, owner);
    forall t | t in owners ensures !ManagedTag(t) {
      assert t in Unmanaged(owners);
    }
  }

  lemma NothingNew(f: Fields, g: Fields)
    requires !Contains(Object(f)) && OwnersKey(f).Some? && OwnersKey(g).Some?
    ensures !Contains(Object(Restored(f, g)))
  {
    var r := Restored(f, g);
    ShortKeysAreQuiet();
    assert !Contains(Object(map[])) && !Contains(List([]));
    forall k | k in r ensures !Mentions(k) && !Contains(r[k]) {
    }
  }

  lemma NothingIsKept()
    ensures Unmanaged(map[]) == map[] && Kept([]) == Ok([])
  {
  }

  /** Setup is undone by removal: on every policy without mesh roles that setup can extend, taking the
      mesh out of what it wrote gives the policy back, up to an added empty section. */
  lemma SetupIsUndone(f: Fields, o: Options)
    requires ValidOptions(o) && Merged(f, o).Some? && RemoveMesh(f) == Ok(f)
    ensures RemoveMesh(Merged(f, o).value) == Ok(Restored(f, Merged(f, o).value))
  {
    hide Merged, WithOwners, WithGrants, Roles, Kept, Contains, RemoveMesh, Unmanaged;
    NothingIsKept();
    var g, key := Merged(f, o).value, SectionKey(f);
    MergedParts(f, o);
    EditsAreMade(f);
    EditsAreMade(g);
    var was := if key in f then f[key].fields else map[];
    assert Unmanaged(was) == was by {
      if key in f { assert Edited(f)[key] == f[key]; }
    }
    OwnersAreKept(was, o.owner);
    var grants := if "grants" in f then f["grants"].items else [];
    assert Kept(grants) == Ok(grants) by {
      if "grants" in f { assert Edited(f)["grants"] == f["grants"]; }
    }
    GrantsAreKept(grants, o);
    assert Edited(g) == Restored(f, g) by {
      forall k | k in g ensures k in Restored(f, g) && Edited(g)[k] == Restored(f, g)[k] {
        if k in f { assert Edited(f)[k] == f[k]; }
      }
    }
    NothingNew(f, g);
  }

  lemma GrantsAreSettled(grants: seq<Json>, o: Options)
    ensures WithGrants(WithGrants(grants, o), o) == WithGrants(grants, o)
  {
    hide Routes, Grant;
    RouteStays(grants, NodeTag, MeshPort, NodeTag, MeshPort);
    var first := WithGrant(grants, NodeTag, MeshPort);
    RouteStays(first, ClientTag, MeshPort, NodeTag, MeshPort);
    var second := WithGrant(first, ClientTag, MeshPort);
    if o.dashboard.Some? {
      RouteStays(second, "*", o.dashboard.value, NodeTag, MeshPort);
      RouteStays(second, "*", o.dashboard.value, ClientTag, MeshPort);
    }
  }

  lemma OwnersAreSettled(owners: Fields, owner: string)
    requires WithOwners(owners, Roles, owner).Some?
    ensures var next := WithOwners(owners, Roles, owner).value;
            WithOwners(next, Roles, owner) == Some(next)
  {
    hide WithOwners, Roles;
    OwnersAreWritten(owners, owner);
    var next := WithOwners(owners, Roles, owner).value;
    OwnersAreWritten(next, owner);
    forall t | t in next ensures ManagedTag(t) ==> next[t].List? && Owned(next, t, owner) == next[t] {
    }
    assert WithOwners(next, Roles, owner).value == next;
  }

  /** Setup done twice is setup done once, so a repeated run has nothing to post. */
  lemma SetupIsIdempotent(f: Fields, o: Options)
    requires Merged(f, o).Some?
    ensures Merged(Merged(f, o).value, o) == Merged(f, o)
  {
    hide WithOwners, WithGrants, Roles;
    MergedParts(f, o);
    GrantsAreSettled(if "grants" in f then f["grants"].items else [], o);
    OwnersAreSettled(if SectionKey(f) in f then f[SectionKey(f)].fields else map[], o.owner);
    var g := Merged(f, o).value;
    assert SectionKey(g) == SectionKey(f);
    assert g[SectionKey(g) := g[SectionKey(g)]]["grants" := g["grants"]] == g;
  }

  const EmptyKey: Fields := map["" := Object(map["x" := Null])]

  /** A policy with an object under the empty key: whatever the options, setup extends it, the snapshot
      plan refuses what setup wrote, and removal still gives the policy back. */
  lemma EmptyKeyIsRefused(o: Options)
    requires ValidOptions(o)
    ensures Merged(EmptyKey, o).Some?
    ensures !SupportedAdditions(EmptyKey, Merged(EmptyKey, o).value)
    ensures RemoveMesh(Merged(EmptyKey, o).value) == Ok(Restored(EmptyKey, Merged(EmptyKey, o).value))
  {
    hide SupportedAdditions, WithOwners, Roles, WithGrants, Restored;
    OwnersAreWritten(map[], o.owner);
    assert "x" in EmptyKey[""].fields && |"x"| != |ServerTag| && |"x"| != |NodeTag| && |"x"| != |ClientTag|;
    assert !NothingUnnamed(EmptyKey, o);
    SetupIsSupported(EmptyKey, o);
    assert RemoveMesh(EmptyKey) == Ok(EmptyKey) by {
      ShortIsQuiet("");
      ShortIsQuiet("x");
      CleanPolicies(EmptyKey);
    }
    hide RemoveMesh;
    SetupIsUndone(EmptyKey, o);
  }
}
