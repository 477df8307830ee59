/** Tailnet policy clean-up: which policies count as "the old one plus what setup appended", and how
    mesh roles are taken out of a policy again.
 */
module Policy {
  import opened Messages
  import opened Json
  import opened Text

  type Fields = map<string, Json>

  // A field, or null when it is absent.
  function Get(f: Fields, key: string): Json {
    if key in f then f[key] else Null
  }

  /******* Mesh references *******/

  const MeshPrefix := "tag:herdr-mesh-"
  const ServerTag := "tag:herdr-mesh-server"
  const NodeTag := "tag:herdr-mesh-node"
  const ClientTag := "tag:herdr-mesh-client"

  predicate ManagedTag(s: string) {
    s == ServerTag || s == NodeTag || s == ClientTag
  }

  predicate ManagedSelector(s: string) {
    ManagedTag(s) || ServerTag + ":" <= s || NodeTag + ":" <= s || ClientTag + ":" <= s
  }

  predicate Mentions(s: string) {
    exists i | 0 <= i <= |s| :: MeshPrefix <= s[i..]
  }

  // containsMeshReference
  predicate Contains(j: Json) {
    match j
    case Text(s) => Mentions(s)
    case List(items) => exists i | 0 <= i < |items| :: Contains(items[i])
    case Object(fields) => exists k | k in fields :: Mentions(k) || Contains(fields[k])
    case _ => false
  }

  lemma SelectorsMention(s: string)
    requires ManagedSelector(s)
    ensures Mentions(s)
  {
    assert MeshPrefix <= ServerTag && MeshPrefix <= NodeTag && MeshPrefix <= ClientTag;
    assert s[0..] == s;
    assert MeshPrefix <= s[0..];
  }

  /******* Removal *******/

  datatype Failure = InvalidPolicy | AmbiguousMeshPolicy | PolicyConflict

  datatype Result<T> = Ok(value: T) | Err(failure: Failure)

  // tagOwnersKey: "" when there is no section, None when there are two.
  function OwnersKey(f: Fields): Option<string> {
    if "tagOwners" in f && "tagowners" in f then None
    else if "tagOwners" in f then Some("tagOwners")
    else if "tagowners" in f then Some("tagowners")
    else Some("")
  }

  function Unmanaged(owners: Fields): Fields {
    map t | t in owners && !ManagedTag(t) :: owners[t]
  }

  datatype Selection = Malformed | Mixed | MeshOnly | OtherOnly

  // The selectors of one field of a rule.
  function Select(j: Json): Selection {
    if !j.List? || exists i | 0 <= i < |j.items| :: !j.items[i].Text? then Malformed
    else
      var mesh := exists i | 0 <= i < |j.items| :: ManagedSelector(j.items[i].text);
      var other := exists i | 0 <= i < |j.items| :: !ManagedSelector(j.items[i].text);
      if mesh && other then Mixed else if mesh then MeshOnly else OtherOnly
  }

  // Whether a rule goes; src is judged before dst.
  function Removed(rule: Json): Result<bool> {
    if !rule.Object? then Err(InvalidPolicy)
    else
      var src, dst := Select(Get(rule.fields, "src")), Select(Get(rule.fields, "dst"));
      if src.Malformed? then Err(InvalidPolicy)
      else if src.Mixed? then Err(AmbiguousMeshPolicy)
      else if dst.Malformed? then Err(InvalidPolicy)
      else if dst.Mixed? then Err(AmbiguousMeshPolicy)
      else Ok(src.MeshOnly? || dst.MeshOnly?)
  }

  // The rules that stay, in order; the first rule that cannot be judged decides the failure.
  function Kept(rules: seq<Json>): Result<seq<Json>> {
    if rules == [] then Ok([])
    else
      match Removed(rules[0])
      case Err(e) => Err(e)
      case Ok(gone) =>
        match Kept(rules[1..])
        case Err(e) => Err(e)
        case Ok(rest) => Ok(if gone then rest else [rules[0]] + rest)
  }

  function CleanOwners(f: Fields): Result<Fields> {
    match OwnersKey(f)
    case None => Err(InvalidPolicy)
    case Some(key) =>
      if key == "" then Ok(f)
      else if !f[key].Object? then Err(InvalidPolicy)
      else Ok(f[key := Object(Unmanaged(f[key].fields))])
  }

  function CleanSection(f: Fields, section: string): Result<Fields> {
    if section !in f then Ok(f)
    else if !f[section].List? then Err(InvalidPolicy)
    else
      match Kept(f[section].items)
      case Err(e) => Err(e)
      case Ok(kept) => Ok(f[section := List(kept)])
  }

  // PrepareMeshPolicyRemoval, from the parsed current policy to the desired one
  function RemoveMesh(f: Fields): Result<Fields> {
    match CleanOwners(f)
    case Err(e) => Err(e)
    case Ok(a) =>
      match CleanSection(a, "grants")
      case Err(e) => Err(e)
      case Ok(b) =>
        match CleanSection(b, "acls")
        case Err(e) => Err(e)
        case Ok(c) => if Contains(Object(c)) then Err(AmbiguousMeshPolicy) else Ok(c)
  }

  // The selectors' loop: mesh and other are noticed as they appear.
  method SelectField(j: Json) returns (s: Selection)
    ensures s == Select(j)
  {
    if !j.List? {
      return Malformed;
    }
    var mesh, other := false, false;
    for i := 0 to |j.items|
      invariant forall k | 0 <= k < i :: j.items[k].Text?
      invariant mesh <==> exists k | 0 <= k < i :: ManagedSelector(j.items[k].text)
      invariant other <==> exists k | 0 <= k < i :: !ManagedSelector(j.items[k].text)
    {
      if !j.items[i].Text? {
        return Malformed;
      }
      if ManagedSelector(j.items[i].text) { mesh := true; } else { other := true; }
    }
    s := if mesh && other then Mixed else if mesh then MeshOnly else OtherOnly;
  }

  lemma KeptPrefix(rules: seq<Json>, i: nat)
    requires i < |rules|
    ensures Kept(rules[..i + 1]) ==
            match Kept(rules[..i])
            case Err(e) => Err(e)
            case Ok(kept) =>
              match Removed(rules[i])
              case Err(e) => Err(e)
              case Ok(gone) => Ok(if gone then kept else kept + [rules[i]])
    decreases i
  {
    hide Removed;
    KeptAppend(rules[..i], [rules[i]]);
    KeptOne(rules[i]);
    assert rules[..i + 1] == rules[..i] + [rules[i]];
    if Kept(rules[..i]).Ok? { assert Kept(rules[..i]).value + [] == Kept(rules[..i]).value; }
  }

  lemma KeptOne(rule: Json)
    ensures Kept([rule]) == match Removed(rule) case Err(e) => Err(e) case Ok(gone) => Ok(if gone then [] else [rule])
  {
    hide Removed;
    assert [rule][1..] == [];
    assert [rule] + [] == [rule];
  }

  lemma {:induction false} KeptAppend(a: seq<Json>, b: seq<Json>)
    ensures Kept(a + b) ==
            match Kept(a)
            case Err(e) => Err(e)
            case Ok(x) =>
              match Kept(b)
              case Err(e) => Err(e)
              case Ok(y) => Ok(x + y)
  {
    if a == [] {
      assert a + b == b;
      if Kept(b).Ok? { assert [] + Kept(b).value == Kept(b).value; }
    } else {
      assert (a + b)[1..] == a[1..] + b;
      KeptAppend(a[1..], b);
      if Kept(a[1..]).Ok? && Kept(b).Ok? {
        assert [a[0]] + (Kept(a[1..]).value + Kept(b).value) == [a[0]] + Kept(a[1..]).value + Kept(b).value;
      }
    }
  }

  // The loop over a section, rebuilding `kept`.
  method KeepRules(rules: seq<Json>) returns (r: Result<seq<Json>>)
    ensures r == Kept(rules)
  {
    var kept := [];
    for i := 0 to |rules|
      invariant Kept(rules[..i]) == Ok(kept)
    {
      KeptPrefix(rules, i);
      FailureSticks(rules, i + 1);
      if !rules[i].Object? {
        return Err(InvalidPolicy);
      }
      var remove := false;
      var src := SelectField(Get(rules[i].fields, "src"));
      if src.Malformed? || src.Mixed? {
        return Err(if src.Malformed? then InvalidPolicy else AmbiguousMeshPolicy);
      }
      var dst := SelectField(Get(rules[i].fields, "dst"));
      if dst.Malformed? || dst.Mixed? {
        return Err(if dst.Malformed? then InvalidPolicy else AmbiguousMeshPolicy);
      }
      remove := src.MeshOnly? || dst.MeshOnly?;
      if !remove {
        kept := kept + [rules[i]];
      }
    }
    assert rules[..|rules|] == rules;
    r := Ok(kept);
  }

  lemma FailureSticks(rules: seq<Json>, i: nat)
    requires i <= |rules|
    ensures Kept(rules[..i]).Err? ==> Kept(rules) == Kept(rules[..i])
  {
    KeptAppend(rules[..i], rules[i..]);
    assert rules == rules[..i] + rules[i..];
  }

  // PrepareMeshPolicyRemoval's edits, in the order the code makes them.
  method PrepareRemoval(f: Fields) returns (r: Result<Fields>)
    ensures r == RemoveMesh(f)
  {
    var policy := f;
    var key := OwnersKey(policy);
    if key.None? {
      return Err(InvalidPolicy);
    }
    if key.value != "" {
      if !policy[key.value].Object? {
        return Err(InvalidPolicy);
      }
      policy := policy[key.value := Object(Unmanaged(policy[key.value].fields))];
    }
    ghost var owned := policy;
    var sections := ["grants", "acls"];
    for i := 0 to |sections|
      invariant CleanOwners(f) == Ok(owned)
      invariant i == 0 ==> policy == owned
      invariant i == 1 ==> CleanSection(owned, "grants") == Ok(policy)
      invariant i == 2 ==>
                  && CleanSection(owned, "grants").Ok?
                  && CleanSection(CleanSection(owned, "grants").value, "acls") == Ok(policy)
    {
      var section := sections[i];
      if section in policy {
        if !policy[section].List? {
          return Err(InvalidPolicy);
        }
        var kept := KeepRules(policy[section].items);
        if kept.Err? {
          return Err(kept.failure);
        }
        policy := policy[section := List(kept.value)];
      }
    }
    return if Contains(Object(policy)) then Err(AmbiguousMeshPolicy) else Ok(policy);
  }

  /******* What removal promises *******/

  predicate Untouched(rules: seq<Json>) {
    forall i | 0 <= i < |rules| :: Removed(rules[i]) == Ok(false)
  }

  // at[i] is the place in `rules` of the i-th rule that was kept.
  predicate KeptAt(rules: seq<Json>, kept: seq<Json>, at: seq<nat>) {
    InPlace(rules, kept, at) && Covers(rules, at)
  }

  predicate InPlace(rules: seq<Json>, kept: seq<Json>, at: seq<nat>) {
    && |at| == |kept|
    && (forall i | 0 <= i < |at| :: at[i] < |rules| && kept[i] == rules[at[i]])
    && (forall i, j | 0 <= i < j < |at| :: at[i] < at[j])
  }

  predicate Covers(rules: seq<Json>, at: seq<nat>) {
    forall k: nat | k < |rules| :: k in at <==> Stays(rules[k])
  }

  predicate Stays(rule: Json) {
    Removed(rule) == Ok(false)
  }

  function Shift(at: seq<nat>): (r: seq<nat>)
    ensures |r| == |at| && forall i | 0 <= i < |at| :: r[i] == at[i] + 1
  {
    seq(|at|, i requires 0 <= i < |at| => at[i] + 1)
  }

  lemma InShift(at: seq<nat>, k: nat)
    ensures k in Shift(at) <==> k > 0 && k - 1 in at
  {
    if k in Shift(at) {
      var i :| 0 <= i < |at| && Shift(at)[i] == k;
      assert at[i] == k - 1;
    }
    if k > 0 && k - 1 in at {
      var i :| 0 <= i < |at| && at[i] == k - 1;
      assert Shift(at)[i] == k;
    }
  }

  lemma InPlaceNext(rules: seq<Json>, kept: seq<Json>, at: seq<nat>)
    requires rules != [] && InPlace(rules[1..], kept, at)
    ensures InPlace(rules, kept, Shift(at))
    ensures InPlace(rules, [rules[0]] + kept, [0] + Shift(at))
  {
    forall i | 0 <= i < |at| ensures Shift(at)[i] < |rules| && kept[i] == rules[Shift(at)[i]] {
      assert rules[1..][at[i]] == rules[at[i] + 1];
    }
  }

  lemma CoversNext(rules: seq<Json>, at: seq<nat>, k: nat)
    requires rules != [] && Covers(rules[1..], at) && k < |rules|
    ensures k > 0 ==> (k in Shift(at) <==> Stays(rules[k]))
    ensures 0 !in Shift(at)
  {
    hide Stays;
    InShift(at, k);
    InShift(at, 0);
    if k > 0 { assert rules[k] == rules[1..][k - 1]; }
  }

  lemma KeptAtNext(rules: seq<Json>, kept: seq<Json>, at: seq<nat>)
    requires rules != [] && KeptAt(rules[1..], kept, at)
    ensures !Stays(rules[0]) ==> KeptAt(rules, kept, Shift(at))
    ensures Stays(rules[0]) ==> KeptAt(rules, [rules[0]] + kept, [0] + Shift(at))
  {
    hide Stays, Shift, InPlace;
    InPlaceNext(rules, kept, at);
    forall k: nat | k < |rules| ensures k > 0 ==> (k in Shift(at) <==> Stays(rules[k])) {
      CoversNext(rules, at, k);
    }
    CoversNext(rules, at, 0);
    if Stays(rules[0]) {
      forall k: nat | k < |rules| ensures k in [0] + Shift(at) <==> Stays(rules[k]) {
      }
    }
  }

  /** A cleaned section keeps exactly the rules without mesh roles, each in its place in the order. */
  lemma {:induction false} KeptKeepsOrder(rules: seq<Json>) returns (at: seq<nat>)
    requires Kept(rules).Ok?
    ensures KeptAt(rules, Kept(rules).value, at)
    ensures forall k | 0 <= k < |rules| :: Removed(rules[k]).Ok?
    ensures Untouched(Kept(rules).value)
  {
    hide Removed, KeptAt;
    if rules == [] {
      at := [];
      assert KeptAt([], [], []) by { EmptyKeptAt(); }
    } else {
      var later := KeptKeepsOrder(rules[1..]);
      at := if Removed(rules[0]).value then Shift(later) else [0] + Shift(later);
      KeptAtNext(rules, Kept(rules[1..]).value, later);
      forall k | 0 <= k < |rules| ensures Removed(rules[k]).Ok? {
        if k > 0 { assert rules[k] == rules[1..][k - 1]; }
      }
    }
  }

  lemma EmptyKeptAt()
    ensures KeptAt([], [], [])
  {
  }

  lemma {:induction false} UntouchedIsKept(rules: seq<Json>)
    requires Untouched(rules)
    ensures Kept(rules) == Ok(rules)
  {
    if rules != [] {
      assert Removed(rules[0]) == Ok(false);
      forall i | 0 <= i < |rules[1..]| ensures Removed(rules[1..][i]) == Ok(false) {
        assert rules[1..][i] == rules[i + 1];
      }
      UntouchedIsKept(rules[1..]);
      assert [rules[0]] + rules[1..] == rules;
    }
  }

  // What removal does to each field.
  lemma RemovalByField(f: Fields)
    requires RemoveMesh(f).Ok?
    ensures var g := RemoveMesh(f).value;
            && OwnersKey(f).Some? && g.Keys == f.Keys && OwnersKey(g) == OwnersKey(f)
            && (OwnersKey(f).value != "" ==>
                  && f[OwnersKey(f).value].Object?
                  && g[OwnersKey(f).value] == Object(Unmanaged(f[OwnersKey(f).value].fields)))
            && (forall s | s in ["grants", "acls"] && s in f ::
                  f[s].List? && Kept(f[s].items).Ok? && g[s] == List(Kept(f[s].items).value))
            && (forall k | k in f && k != OwnersKey(f).value && k != "grants" && k != "acls" :: g[k] == f[k])
  {
    hide Contains, Kept;
  }

  /** On every policy where removal succeeds, no reference to a mesh role is left anywhere, nothing
      but the tag owners, the grants and the ACLs has changed, and removing again changes nothing. */
  lemma RemovalIsIdempotent(f: Fields)
    requires RemoveMesh(f).Ok?
    ensures !Contains(Object(RemoveMesh(f).value))
    ensures RemoveMesh(RemoveMesh(f).value) == RemoveMesh(f)
  {
    var g := RemoveMesh(f).value;
    RemovalByField(f);
    hide RemoveMesh, CleanOwners, CleanSection;
    if OwnersKey(f).value != "" {
      assert Unmanaged(Unmanaged(f[OwnersKey(f).value].fields)) == Unmanaged(f[OwnersKey(f).value].fields);
    }
    forall s | s in ["grants", "acls"] && s in f ensures Kept(g[s].items) == Ok(g[s].items) {
      var at := KeptKeepsOrder(f[s].items);
      UntouchedIsKept(g[s].items);
    }
    NothingToRemove(g, f);
  }

  // A policy whose parts need no change comes back as it is.
  lemma NothingToRemove(g: Fields, f: Fields)
    requires OwnersKey(g).Some? && (OwnersKey(g).value != "" ==>
               g[OwnersKey(g).value].Object? && Unmanaged(g[OwnersKey(g).value].fields) == g[OwnersKey(g).value].fields)
    requires forall s | s in ["grants", "acls"] && s in g :: g[s].List? && Kept(g[s].items) == Ok(g[s].items)
    ensures RemoveMesh(g) == if Contains(Object(g)) then Err(AmbiguousMeshPolicy) else Ok(g)
  {
    hide Kept, Contains;
    if OwnersKey(g).value != "" { assert g[OwnersKey(g).value := Object(g[OwnersKey(g).value].fields)] == g; }
    assert CleanOwners(g) == Ok(g);
    assert "grants" in ["grants", "acls"] && "acls" in ["grants", "acls"];
    if "grants" in g { assert g["grants" := List(g["grants"].items)] == g; }
    if "acls" in g { assert g["acls" := List(g["acls"].items)] == g; }
  }

  /******* Clean policies *******/

  predicate Selectors(j: Json) {
    j.List? && forall i | 0 <= i < |j.items| :: j.items[i].Text?
  }

  predicate WellFormedRule(rule: Json) {
    rule.Object? && Selectors(Get(rule.fields, "src")) && Selectors(Get(rule.fields, "dst"))
  }

  predicate WellFormed(f: Fields) {
    && OwnersKey(f).Some?
    && (OwnersKey(f).value != "" ==> f[OwnersKey(f).value].Object?)
    && forall s | s in ["grants", "acls"] && s in f ::
         f[s].List? && forall i | 0 <= i < |f[s].items| :: WellFormedRule(f[s].items[i])
  }

  lemma QuietField(rule: Json, field: string)
    requires rule.Object? && !Contains(rule) && Selectors(Get(rule.fields, field))
    ensures Select(Get(rule.fields, field)).OtherOnly?
  {
    var j := Get(rule.fields, field);
    assert field in rule.fields;
    assert !Contains(j);
    forall i | 0 <= i < |j.items| ensures !ManagedSelector(j.items[i].text) {
      assert !Contains(j.items[i]);
      if ManagedSelector(j.items[i].text) { SelectorsMention(j.items[i].text); }
    }
  }

  lemma QuietOwners(owners: Fields)
    requires !Contains(Object(owners))
    ensures Unmanaged(owners) == owners
  {
    forall t | t in owners ensures !ManagedTag(t) {
      if ManagedTag(t) { SelectorsMention(t); }
    }
  }

  lemma QuietItem(rules: seq<Json>, i: nat)
    requires !Contains(List(rules)) && i < |rules|
    ensures !Contains(rules[i])
  {
    assert List(rules).items[i] == rules[i];
  }

  lemma QuietRules(rules: seq<Json>)
    requires !Contains(List(rules)) && forall i | 0 <= i < |rules| :: WellFormedRule(rules[i])
    ensures Untouched(rules) && Kept(rules) == Ok(rules)
  {
    hide Contains, Select, Selectors, Kept;
    forall i | 0 <= i < |rules| ensures Removed(rules[i]) == Ok(false) {
      assert WellFormedRule(rules[i]);
      QuietItem(rules, i);
      QuietField(rules[i], "src");
      QuietField(rules[i], "dst");
    }
    UntouchedIsKept(rules);
  }

  /** Removal leaves a policy alone exactly when it is well formed and mentions no mesh role. */
  lemma CleanPolicies(f: Fields)
    ensures RemoveMesh(f) == Ok(f) <==> WellFormed(f) && !Contains(Object(f))
  {
    if WellFormed(f) && !Contains(Object(f)) {
      CleanIsUntouched(f);
      NothingToRemove(f, f);
    }
    if RemoveMesh(f) == Ok(f) {
      RemovalByField(f);
      forall s | s in ["grants", "acls"] && s in f
        ensures forall i | 0 <= i < |f[s].items| :: WellFormedRule(f[s].items[i])
      {
        var at := KeptKeepsOrder(f[s].items);
        forall i | 0 <= i < |f[s].items| ensures WellFormedRule(f[s].items[i]) { JudgedIsWellFormed(f[s].items[i]); }
      }
    }
  }

  lemma JudgedIsWellFormed(rule: Json)
    requires Removed(rule).Ok?
    ensures WellFormedRule(rule)
  {
  }

  lemma CleanIsUntouched(f: Fields)
    requires WellFormed(f) && !Contains(Object(f))
    ensures OwnersKey(f).value != "" ==> Unmanaged(f[OwnersKey(f).value].fields) == f[OwnersKey(f).value].fields
    ensures forall s | s in ["grants", "acls"] && s in f :: Kept(f[s].items) == Ok(f[s].items)
  {
    if OwnersKey(f).value != "" {
      assert !Contains(f[OwnersKey(f).value]);
      QuietOwners(f[OwnersKey(f).value].fields);
    }
    forall s | s in ["grants", "acls"] && s in f ensures Kept(f[s].items) == Ok(f[s].items) {
      assert !Contains(f[s]);
      assert f[s] == List(f[s].items);
      QuietRules(f[s].items);
    }
  }

  /******* Supported additions *******/

  predicate Extensible(key: string) {
    key == "tagOwners" || key == "tagowners" || key == "grants"
  }

  // The tag owners under a key; the code also looks under the empty key when there is no section.
  function Owners(f: Fields, key: string): Fields {
    if key in f && f[key].Object? then f[key].fields else map[]
  }

  // One owner more than before, at the end, and not among the earlier ones.
  predicate OneOwnerMore(added: Json, previous: seq<Json>) {
    && added.List? && |added.items| == |previous| + 1
    && added.items[..|previous|] == previous
    && added.items[|previous|].Text? && added.items[|previous|].text != ""
    && added.items[|previous|] !in previous
  }

  predicate OwnerAllowed(tag: string, before: Fields, owners: Json) {
    || Get(before, tag) == owners
    || (&& ManagedTag(tag)
        && (tag in before ==> before[tag].List?)
        && OneOwnerMore(owners, if tag in before then before[tag].items else []))
  }

  predicate SupportedOwners(before: Fields, applied: Fields) {
    && OwnersKey(before).Some? && OwnersKey(applied).Some?
    && (OwnersKey(before).value != "" ==> OwnersKey(applied) == OwnersKey(before))
    && (OwnersKey(applied).value == "" || (
          var prior, next := Owners(before, OwnersKey(before).value), Owners(applied, OwnersKey(applied).value);
          && applied[OwnersKey(applied).value].Object?
          && (OwnersKey(before).value != "" ==> before[OwnersKey(before).value].Object?)
          && (forall t | t in prior :: t in next && (!ManagedTag(t) ==> prior[t] == next[t]))
          && (forall t | t in next :: OwnerAllowed(t, prior, next[t]))))
  }

  function Single(j: Json): Option<string> {
    if j.List? && |j.items| == 1 && j.items[0].Text? then Some(j.items[0].text) else None
  }

  // The port of a grant that setup may have appended.
  predicate GrantFor(grant: Json, port: nat) {
    && grant.Object? && |grant.fields| == 3
    && Single(Get(grant.fields, "src")).Some?
    && Single(Get(grant.fields, "src")).value in {NodeTag, ClientTag, "*"}
    && Single(Get(grant.fields, "dst")) == Some(ServerTag)
    && Single(Get(grant.fields, "ip")) == Some("tcp:" + Decimal(port))
    && 1 <= port <= 65535
    && (Single(Get(grant.fields, "src")) == Some(NodeTag) ==> port == 50052)
    && (Single(Get(grant.fields, "src")) == Some("*") ==> port != 50052)
  }

  predicate AppendedGrant(grant: Json) {
    exists port: nat | 1 <= port <= 65535 :: GrantFor(grant, port)
  }

  predicate Dashboard(grant: Json) {
    AppendedGrant(grant) && !GrantFor(grant, 50052)
  }

  predicate SameRoute(a: Json, b: Json) {
    && a.Object? && b.Object?
    && Get(a.fields, "src") == Get(b.fields, "src") && Get(a.fields, "dst") == Get(b.fields, "dst")
    && Get(a.fields, "ip") == Get(b.fields, "ip")
  }

  predicate SupportedGrants(before: Fields, applied: Fields) {
    if "grants" !in applied then "grants" !in before
    else
      var next := applied["grants"];
      var size := if "grants" in before && before["grants"].List? then |before["grants"].items| else 0;
      && next.List? && ("grants" in before ==> before["grants"].List?)
      && size <= |next.items| <= size + 3
      && ("grants" in before ==> next.items[..size] == before["grants"].items)
      && (forall i | size <= i < |next.items| :: AppendedGrant(next.items[i]))
      && (forall i, j | size <= i < |next.items| && 0 <= j < i :: !SameRoute(next.items[i], next.items[j]))
      && (forall i, j | size <= i < j < |next.items| :: !(Dashboard(next.items[i]) && Dashboard(next.items[j])))
  }

  predicate SupportedAdditions(before: Fields, applied: Fields) {
    && (forall k | k in before :: k in applied && (!Extensible(k) ==> before[k] == applied[k]))
    && (forall k | k in applied :: k in before || Extensible(k))
    && SupportedOwners(before, applied)
    && SupportedGrants(before, applied)
  }

  /******* The round trip *******/

  // `before`, with an empty section where setup added one.
  function Restored(before: Fields, applied: Fields): Fields {
    var owners := if OwnersKey(before) == Some("") && OwnersKey(applied).Some? && OwnersKey(applied).value != ""
                  then before[OwnersKey(applied).value := Object(map[])] else before;
    if "grants" !in before && "grants" in applied then owners["grants" := List([])] else owners
  }

  // An owned tag that is no mesh role and that the old policy did not own.
  predicate ForeignTag(before: Fields, applied: Fields, t: string) {
    && OwnersKey(before).Some? && OwnersKey(applied).Some?
    && t in Owners(applied, OwnersKey(applied).value) && OwnersKey(applied).value != "" && !ManagedTag(t)
    && (OwnersKey(before).value == "" || t !in Owners(before, OwnersKey(before).value))
  }

  lemma AppendedGrantsGo(grant: Json)
    requires AppendedGrant(grant)
    ensures Removed(grant) == Ok(true)
  {
    var src, dst := Get(grant.fields, "src"), Get(grant.fields, "dst");
    assert dst.items == [Text(ServerTag)];
    assert ManagedSelector(dst.items[0].text);
    assert Select(dst).MeshOnly?;
    assert |src.items| == 1;
  }

  lemma {:induction false} AllGo(rules: seq<Json>)
    requires forall i | 0 <= i < |rules| :: AppendedGrant(rules[i])
    ensures Kept(rules) == Ok([])
  {
    if rules != [] {
      AppendedGrantsGo(rules[0]);
      AllGo(rules[1..]);
    }
  }

  // The appended grants go and the old ones stay.
  lemma GrantsRoundTrip(before: Fields, applied: Fields)
    requires RemoveMesh(before) == Ok(before) && SupportedAdditions(before, applied) && "grants" in applied
    ensures Kept(applied["grants"].items) == Ok(if "grants" in before then before["grants"].items else [])
  {
    hide AppendedGrant, RemoveMesh, SupportedOwners;
    RemovalByField(before);
    var next := applied["grants"].items;
    var kept := if "grants" in before then before["grants"].items else [];
    var added := next[|kept|..];
    assert next == kept + added;
    forall i | 0 <= i < |added| ensures AppendedGrant(added[i]) {
      assert added[i] == next[|kept| + i];
    }
    AllGo(added);
    KeptAppend(kept, added);
    assert kept + [] == kept;
  }

  lemma OwnersRoundTrip(before: Fields, applied: Fields)
    requires RemoveMesh(before) == Ok(before) && SupportedAdditions(before, applied)
    requires OwnersKey(applied).value != "" && forall t :: !ForeignTag(before, applied, t)
    ensures Unmanaged(Owners(applied, OwnersKey(applied).value)) ==
            if OwnersKey(before).value == "" then map[] else Owners(before, OwnersKey(before).value)
  {
    hide SupportedGrants, OwnerAllowed, RemoveMesh;
    CleanPolicies(before);
    RemovalByField(before);
    var next := Owners(applied, OwnersKey(applied).value);
    forall t | t in next && !ManagedTag(t)
      ensures OwnersKey(before).value != "" && t in Owners(before, OwnersKey(before).value)
    {
      assert !ForeignTag(before, applied, t);
    }
  }

  lemma RestoredIsQuiet(before: Fields, applied: Fields)
    requires !Contains(Object(before)) && SupportedAdditions(before, applied)
    ensures !Contains(Object(Restored(before, applied)))
  {
    hide SupportedOwners, SupportedGrants;
    var r := Restored(before, applied);
    assert !Mentions("tagOwners") && !Mentions("tagowners") && !Mentions("grants") by { ShortKeysAreQuiet(); }
    assert !Contains(Object(map[])) && !Contains(List([]));
    forall k | k in r ensures !Mentions(k) && !Contains(r[k]) {
    }
  }

  lemma ShortKeysAreQuiet()
    ensures !Mentions("tagOwners") && !Mentions("tagowners") && !Mentions("grants")
  {
    assert |MeshPrefix| == 15;
  }

  /** The round trip: when the old policy mentions no mesh role and the applied one only adds what
      setup may add, taking the mesh out again gives the old policy back, up to an added empty
      section, exactly when setup's policy owns no foreign tag the old one did not own. */
  lemma PolicyRoundTrip(before: Fields, applied: Fields)
    requires RemoveMesh(before) == Ok(before) && SupportedAdditions(before, applied)
    ensures RemoveMesh(applied) == Ok(Restored(before, applied)) <==> forall t :: !ForeignTag(before, applied, t)
  {
    hide Contains, Kept, SupportedGrants, OwnerAllowed;
    CleanPolicies(before);
    if forall t :: !ForeignTag(before, applied, t) {
      RoundTripHolds(before, applied);
    } else {
      var t :| ForeignTag(before, applied, t);
      if RemoveMesh(applied) == Ok(Restored(before, applied)) {
        RemovalByField(applied);
        ForeignTagStays(before, applied, t);
      }
    }
  }

  lemma ForeignTagStays(before: Fields, applied: Fields, t: string)
    requires ForeignTag(before, applied, t) && SupportedAdditions(before, applied)
    ensures var key := OwnersKey(applied).value;
            Object(Unmanaged(Owners(applied, key))) != Get(Restored(before, applied), key)
  {
    assert t in Unmanaged(Owners(applied, OwnersKey(applied).value));
  }

  lemma RoundTripHolds(before: Fields, applied: Fields)
    requires RemoveMesh(before) == Ok(before) && SupportedAdditions(before, applied)
    requires forall t :: !ForeignTag(before, applied, t)
    ensures RemoveMesh(applied) == Ok(Restored(before, applied))
  {
    hide Contains, Kept, OwnerAllowed, ForeignTag;
    CleanPolicies(before);
    RemovalByField(before);
    RestoredIsQuiet(before, applied);
    if OwnersKey(applied).value != "" { OwnersRoundTrip(before, applied); }
    if "grants" in applied { GrantsRoundTrip(before, applied); }
    AppliedParts(before, applied);
  }

  // What the sections of the applied policy become.
  predicate SectionsRestored(before: Fields, applied: Fields) {
    && (OwnersKey(applied).Some? && OwnersKey(applied).value != "" ==>
          && applied[OwnersKey(applied).value].Object?
          && Unmanaged(applied[OwnersKey(applied).value].fields) ==
             (if OwnersKey(before) == Some("") then map[] else Owners(before, OwnersKey(applied).value)))
    && ("grants" in applied ==>
          && applied["grants"].List?
          && Kept(applied["grants"].items) ==
             Ok(if "grants" in before && before["grants"].List? then before["grants"].items else []))
  }

  lemma CleanedOwners(before: Fields, applied: Fields)
    requires SupportedAdditions(before, applied) && SectionsRestored(before, applied)
    requires OwnersKey(before).Some? && (OwnersKey(before).value != "" ==> before[OwnersKey(before).value].Object?)
    ensures CleanOwners(applied).Ok? && CleanOwners(applied).value.Keys == applied.Keys
    ensures forall k | k in applied :: CleanOwners(applied).value[k] ==
              if k == OwnersKey(applied).value && k != "" then
                (if OwnersKey(before).value == "" then Object(map[]) else before[k])
              else applied[k]
  {
    hide Kept, OwnerAllowed, SupportedGrants;
    if OwnersKey(before).value != "" {
      assert Object(before[OwnersKey(before).value].fields) == before[OwnersKey(before).value];
    }
  }

  // Field by field, the cleaned sections are the restored policy.
  lemma RestoredByField(before: Fields, applied: Fields, k: string)
    requires SupportedAdditions(before, applied) && OwnersKey(before).Some? && OwnersKey(applied).Some?
    requires "grants" in before ==> before["grants"].List?
    ensures k in Restored(before, applied) <==> k in applied
    ensures k in applied && k != "grants" ==>
              Restored(before, applied)[k] ==
              if k == OwnersKey(applied).value && k != "" then
                (if OwnersKey(before).value == "" then Object(map[]) else before[k])
              else applied[k]
    ensures "grants" in applied ==>
              Restored(before, applied)["grants"] == List(if "grants" in before then before["grants"].items else [])
  {
    hide SupportedOwners, SupportedGrants;
    OwnersKeyStays(before, applied);
  }

  lemma OwnersKeyStays(before: Fields, applied: Fields)
    ensures SupportedOwners(before, applied) ==>
              (OwnersKey(before).value != "" ==> OwnersKey(applied) == OwnersKey(before))
  {
  }

  lemma CleanedGrants(before: Fields, applied: Fields)
    requires SupportedAdditions(before, applied) && SectionsRestored(before, applied)
    requires OwnersKey(before).Some? && OwnersKey(applied).Some?
    requires OwnersKey(before).value != "" ==> before[OwnersKey(before).value].Object?
    requires "grants" in before ==> before["grants"].List?
    ensures CleanOwners(applied).Ok?
    ensures CleanSection(CleanOwners(applied).value, "grants") == Ok(Restored(before, applied))
  {
    CleanedOwners(before, applied);
    hide Kept, SupportedAdditions, Unmanaged, Restored, CleanOwners, OwnersKey;
    var a := CleanOwners(applied).value;
    var b := CleanSection(a, "grants").value;
    forall k ensures k in b <==> k in Restored(before, applied) {
      RestoredByField(before, applied, k);
    }
    forall k | k in b ensures b[k] == Restored(before, applied)[k] {
      RestoredByField(before, applied, k);
    }
    assert b == Restored(before, applied);
  }

  // Removal on the applied policy, section by section.
  lemma AppliedParts(before: Fields, applied: Fields)
    requires RemoveMesh(before) == Ok(before) && SupportedAdditions(before, applied)
    requires SectionsRestored(before, applied)
    requires !Contains(Object(Restored(before, applied)))
    ensures RemoveMesh(applied) == Ok(Restored(before, applied))
  {
    RemovalByField(before);
    assert "grants" in ["grants", "acls"] && "acls" in ["grants", "acls"];
    hide Kept, SupportedOwners, SupportedGrants, SectionsRestored, RemoveMesh;
    CleanedGrants(before, applied);
    var r := Restored(before, applied);
    assert CleanSection(r, "acls") == Ok(r) by {
      if "acls" in r {
        AclsAreKept(before, applied);
        assert r["acls" := List(r["acls"].items)] == r;
      }
    }
    RemovalSteps(applied, CleanOwners(applied).value, r);
  }

  lemma RemovalSteps(f: Fields, a: Fields, b: Fields)
    requires CleanOwners(f) == Ok(a) && CleanSection(a, "grants") == Ok(b) && CleanSection(b, "acls") == Ok(b)
    requires !Contains(Object(b))
    ensures RemoveMesh(f) == Ok(b)
  {
    hide CleanOwners, CleanSection;
  }

  lemma AclsAreKept(before: Fields, applied: Fields)
    requires RemoveMesh(before) == Ok(before) && SupportedAdditions(before, applied)
    requires "acls" in Restored(before, applied)
    ensures "acls" in before && Restored(before, applied)["acls"] == before["acls"]
    ensures before["acls"].List? && Kept(before["acls"].items) == Ok(before["acls"].items)
  {
    RemovalByField(before);
    assert "acls" in ["grants", "acls"];
  }

  /** A foreign tag only slips in where the code compares with a missing value: its owners are null,
      or the old policy has no owners section and an object under the empty key. */
  lemma ForeignTagsSlipIn(before: Fields, applied: Fields, t: string)
    requires SupportedAdditions(before, applied) && ForeignTag(before, applied, t)
    ensures || Owners(applied, OwnersKey(applied).value)[t] == Null
            || (OwnersKey(before) == Some("") && "" in before && before[""].Object? && t in before[""].fields)
  {
    assert OwnerAllowed(t, Owners(before, OwnersKey(before).value), Owners(applied, OwnersKey(applied).value)[t]);
  }

  const NullOwned: Fields := map["tagOwners" := Object(map["tag:x" := Null])]

  /** A new tag owned by null is accepted as an addition, and survives the removal. */
  lemma NullOwnersAreMissed()
    ensures SupportedAdditions(map[], NullOwned)
    ensures RemoveMesh(map[]) == Ok(map[])
    ensures RemoveMesh(NullOwned) != Ok(Restored(map[], NullOwned))
  {
    hide Kept;
    CleanPolicies(map[]);
    assert ForeignTag(map[], NullOwned, "tag:x");
    PolicyRoundTrip(map[], NullOwned);
  }

  /******* Applying a plan *******/

  // PreparePolicy: the three-way comparison of both snapshots with the current policy.
  function Prepare(before: Fields, applied: Fields, current: Fields): Result<(Fields, bool)> {
    if !SupportedAdditions(before, applied) then Err(InvalidPolicy)
    else if current == before then Ok((before, true))
    else if current == applied then Ok((before, false))
    else Err(PolicyConflict)
  }

  /** A prepared plan never overwrites anything but setup's own additions: what it replaces is the
      applied snapshot, and what it writes is the old one. */
  lemma PlansOnlyUndo(before: Fields, applied: Fields, current: Fields)
    requires Prepare(before, applied, current).Ok?
    ensures var (desired, same) := Prepare(before, applied, current).value;
            && desired == before
            && (same ==> current == before)
            && (!same ==> current == applied && current != before)
            && (forall k | k in current && !Extensible(k) :: k in desired && desired[k] == current[k])
  {
    hide SupportedOwners, SupportedGrants;
  }

  /** The two ways to take setup out again agree: the plan that puts the old snapshot back writes
      what removal by ownership would leave, up to an added empty section, exactly when setup's
      policy owns no foreign tag; and a plan that finds nothing to do is one that removal would not
      change either. */
  lemma PlansAgreeWithRemoval(before: Fields, applied: Fields, current: Fields)
    requires RemoveMesh(before) == Ok(before) && Prepare(before, applied, current).Ok?
    ensures var (desired, same) := Prepare(before, applied, current).value;
            (RemoveMesh(current) == Ok(if same then desired else Restored(desired, current)))
            == (same || forall t :: !ForeignTag(desired, current, t))
  {
    hide Contains, Kept, SupportedGrants, SupportedOwners, OwnerAllowed, RemoveMesh, Restored, ForeignTag;
    if current != before { PolicyRoundTrip(before, applied); }
  }

  // The answer to the one POST: refused by the ETag, refused outright, the client is closed, a
  // parsed body, or anything that leaves the outcome open.
  datatype Post = EtagMismatch | Definite | ClientClosed | Answered(policy: Fields) | Unclear

  datatype Applied =
    | AlreadyClean | Installed | Reconciled
    | PlanUsed | Canceled | Conflict | RefusedPost | RolesInUse | Closed | OutcomeUnknown

  class PolicyPlan {
    const desired: Fields
    const settled: bool
    var attempted: bool
    // policy POSTs issued so far
    ghost var posts: nat

    constructor (desired: Fields, settled: bool)
      ensures this.desired == desired && this.settled == settled && !attempted && Valid()
    {
      this.desired, this.settled, attempted, posts := desired, settled, false, 0;
    }

    ghost predicate Valid()
      reads this
    {
      posts <= if attempted && !settled then 1 else 0
    }

    /** ApplyPolicy: a plan is used once and posts at most once, whatever the answers; success is
        only reported when some answer showed the desired policy. */
    method Apply(canceled: bool, rolesAbsent: bool, post: Post, read: Option<Fields>) returns (r: Applied)
      requires Valid()
      modifies this
      ensures Valid() && (old(attempted) ==> attempted)
      ensures r.PlanUsed? <==> old(attempted)
      ensures r.Canceled? <==> !old(attempted) && canceled
      ensures r.Canceled? ==> !attempted
      ensures posts == old(posts) + if !old(attempted) && !canceled && !settled && rolesAbsent then 1 else 0
      ensures r == AlreadyClean <==> !old(attempted) && !canceled && settled && read == Some(desired)
      ensures r == Installed <==> posts > old(posts) && post == Answered(desired)
      ensures r == Reconciled <==>
              && posts > old(posts) && read == Some(desired)
              && (post.Unclear? || (post.Answered? && post.policy != desired))
      ensures r == OutcomeUnknown ==> attempted && read != Some(desired)
    {
      if attempted {
        return PlanUsed;
      }
      if canceled {
        return Canceled;
      }
      attempted := true;
      if settled {
        return if read.None? then OutcomeUnknown else if read.value == desired then AlreadyClean else Conflict;
      }
      if !rolesAbsent {
        return RolesInUse;
      }
      posts := posts + 1;
      match post {
        case EtagMismatch => return Conflict;
        case Definite => return RefusedPost;
        case ClientClosed => return Closed;
        case Answered(policy) =>
          if policy == desired {
            return Installed;
          }
        case Unclear =>
      }
      return if read == Some(desired) then Reconciled else OutcomeUnknown;
    }
  }
}
