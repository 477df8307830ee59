/** When mesh roles can be taken out of a policy, and what is then left, spelled out on selectors,
    rules and tags.
 */
module Cleanup {
  import opened Messages
  import opened Json
  import opened Policy

  // A rule whose sources and destinations are lists of selectors.
  predicate IsRule(rule: Json) {
    rule.Object? && IsSelectorList(Get(rule.fields, "src")) && IsSelectorList(Get(rule.fields, "dst"))
  }

  predicate IsSelectorList(j: Json) {
    j.List? && forall i | 0 <= i < |j.items| :: j.items[i].Text?
  }

  // No field holds a managed and an unmanaged selector.
  predicate Unmixed(rule: Json)
    requires IsRule(rule)
  {
    && (forall i, j | 0 <= i < |Field(rule, "src")| && 0 <= j < |Field(rule, "src")| ::
          ManagedSelector(Field(rule, "src")[i].text) == ManagedSelector(Field(rule, "src")[j].text))
    && (forall i, j | 0 <= i < |Field(rule, "dst")| && 0 <= j < |Field(rule, "dst")| ::
          ManagedSelector(Field(rule, "dst")[i].text) == ManagedSelector(Field(rule, "dst")[j].text))
  }

  // Some field is not empty and holds nothing but managed selectors.
  predicate OnlyForTheMesh(rule: Json)
    requires IsRule(rule)
  {
    var src, dst := Field(rule, "src"), Field(rule, "dst");
    || (src != [] && forall i | 0 <= i < |src| :: ManagedSelector(src[i].text))
    || (dst != [] && forall i | 0 <= i < |dst| :: ManagedSelector(dst[i].text))
  }

  function Field(rule: Json, field: string): (items: seq<Json>)
    requires IsRule(rule) && field in {"src", "dst"}
    ensures forall i | 0 <= i < |items| :: items[i].Text?
  {
    Get(rule.fields, field).items
  }

  lemma FieldIsJudged(rule: Json, field: string)
    requires IsRule(rule) && field in {"src", "dst"}
    ensures var items := Field(rule, field);
            var s := Select(Get(rule.fields, field));
            && !s.Malformed?
            && (s.Mixed? <==> exists i, j | 0 <= i < |items| && 0 <= j < |items| ::
                  ManagedSelector(items[i].text) != ManagedSelector(items[j].text))
            && (s.MeshOnly? <==> items != [] && forall i | 0 <= i < |items| :: ManagedSelector(items[i].text))
  {
    hide ManagedSelector;
    var items := Field(rule, field);
    if i, j :| 0 <= i < |items| && 0 <= j < |items|
               && ManagedSelector(items[i].text) != ManagedSelector(items[j].text) {
      assert Select(Get(rule.fields, field)).Mixed?;
    }
    if items != [] && forall i | 0 <= i < |items| :: ManagedSelector(items[i].text) {
      assert ManagedSelector(items[0].text);
    }
  }

  /** A rule is judged exactly if its fields are selector lists and neither mixes managed selectors
      with others, and it goes exactly if one of them is for the mesh alone. */
  lemma RuleIsJudged(rule: Json)
    ensures Removed(rule).Ok? <==> IsRule(rule) && Unmixed(rule)
    ensures Removed(rule).Ok? ==> (Removed(rule).value <==> OnlyForTheMesh(rule))
    ensures IsRule(rule) && !Unmixed(rule) ==> Removed(rule) == Err(AmbiguousMeshPolicy)
  {
    hide ManagedSelector, Select;
    if IsRule(rule) {
      FieldIsJudged(rule, "src");
      FieldIsJudged(rule, "dst");
    } else {
      NoRuleIsMalformed(rule);
    }
  }

  lemma NoRuleIsMalformed(rule: Json)
    requires !IsRule(rule)
    ensures Removed(rule).Err?
  {
    hide ManagedSelector;
  }

  // The rules that stay, in order, with their places: exactly those that are not for the mesh alone.
  predicate Sifted(rules: seq<Json>, kept: seq<Json>, at: seq<nat>) {
    && (forall i | 0 <= i < |rules| :: IsRule(rules[i]) && Unmixed(rules[i]))
    && |at| == |kept| && (forall i | 0 <= i < |at| :: at[i] < |rules| && kept[i] == rules[at[i]])
    && (forall i, j | 0 <= i < j < |at| :: at[i] < at[j])
    && (forall k: nat | k < |rules| :: k in at <==> !OnlyForTheMesh(rules[k]))
  }

  lemma KeptIsSifted(rules: seq<Json>) returns (at: seq<nat>)
    requires Kept(rules).Ok?
    ensures Sifted(rules, Kept(rules).value, at)
  {
    hide Removed, Unmixed, OnlyForTheMesh, IsRule;
    at := KeptKeepsOrder(rules);
    forall i | 0 <= i < |rules| ensures IsRule(rules[i]) && Unmixed(rules[i]) { RuleIsJudged(rules[i]); }
    forall k: nat | k < |rules| ensures k in at <==> !OnlyForTheMesh(rules[k]) { RuleIsJudged(rules[k]); }
  }

  lemma {:induction false} KeptWhenJudged(rules: seq<Json>)
    ensures Kept(rules).Ok? <==> forall i | 0 <= i < |rules| :: IsRule(rules[i]) && Unmixed(rules[i])
    decreases |rules|
  {
    hide Removed, Unmixed, IsRule;
    if rules != [] {
      RuleIsJudged(rules[0]);
      KeptWhenJudged(rules[1..]);
      assert forall i | 0 < i < |rules| :: rules[i] == rules[1..][i - 1];
      if forall i | 0 <= i < |rules| :: IsRule(rules[i]) && Unmixed(rules[i]) {
        forall i | 0 <= i < |rules[1..]| ensures IsRule(rules[1..][i]) && Unmixed(rules[1..][i]) {
          assert rules[1..][i] == rules[i + 1];
        }
      }
    }
  }

  /** What removal leaves: in each section, in its order, every rule but those for the mesh alone; of
      the tag owners, every tag but the mesh's own; and everything else as it was. */
  lemma RemovalLeaves(f: Fields, section: string) returns (at: seq<nat>)
    requires RemoveMesh(f).Ok? && section in {"grants", "acls"} && section in f
    ensures section in RemoveMesh(f).value && RemoveMesh(f).value[section].List? && f[section].List?
    ensures Sifted(f[section].items, RemoveMesh(f).value[section].items, at)
  {
    hide RemoveMesh, Kept, Sifted;
    RemovalByField(f);
    assert section in ["grants", "acls"];
    at := KeptIsSifted(f[section].items);
  }

  lemma RemovalLeavesTags(f: Fields, key: string)
    requires RemoveMesh(f).Ok? && key in {"tagOwners", "tagowners"} && key in f
    ensures key in RemoveMesh(f).value && RemoveMesh(f).value[key].Object? && f[key].Object?
    ensures forall t :: t in RemoveMesh(f).value[key].fields <==>
              t in f[key].fields && t != ServerTag && t != NodeTag && t != ClientTag
    ensures forall t | t in RemoveMesh(f).value[key].fields :: RemoveMesh(f).value[key].fields[t] == f[key].fields[t]
  {
    hide RemoveMesh, Kept;
    RemovalByField(f);
  }

  /******* When it succeeds *******/

  // Each section is a list of rules that can be judged, and none that stays mentions the mesh.
  predicate SectionIsClear(f: Fields, section: string) {
    section in f ==>
      && f[section].List?
      && forall i | 0 <= i < |f[section].items| ::
           && IsRule(f[section].items[i]) && Unmixed(f[section].items[i])
           && (OnlyForTheMesh(f[section].items[i]) || !Contains(f[section].items[i]))
  }

  predicate TagsAreClear(f: Fields, key: string) {
    key in f ==>
      && f[key].Object?
      && forall t | t in f[key].fields && t != ServerTag && t != NodeTag && t != ClientTag ::
           !Mentions(t) && !Contains(f[key].fields[t])
  }

  // One section of tag owners, sections that can be judged, and no mention of the mesh elsewhere.
  predicate Removable(f: Fields) {
    && !("tagOwners" in f && "tagowners" in f)
    && TagsAreClear(f, "tagOwners") && TagsAreClear(f, "tagowners")
    && SectionIsClear(f, "grants") && SectionIsClear(f, "acls")
    && forall k | k in f && k !in {"tagOwners", "tagowners", "grants", "acls"} :: !Mentions(k) && !Contains(f[k])
  }

  // The edits can be made, whatever they leave.
  predicate Editable(f: Fields) {
    && !("tagOwners" in f && "tagowners" in f)
    && (forall key | key in {"tagOwners", "tagowners"} && key in f :: f[key].Object?)
    && (forall s | s in {"grants", "acls"} && s in f :: f[s].List? && Kept(f[s].items).Ok?)
  }

  function Edited(f: Fields): Fields
    requires Editable(f)
  {
    map k | k in f ::
      if k in {"tagOwners", "tagowners"} then Object(Unmanaged(f[k].fields))
      else if k in {"grants", "acls"} then List(Kept(f[k].items).value)
      else f[k]
  }

  function EditedTags(f: Fields): Fields
    requires forall key | key in {"tagOwners", "tagowners"} && key in f :: f[key].Object?
  {
    map k | k in f :: if k in {"tagOwners", "tagowners"} then Object(Unmanaged(f[k].fields)) else f[k]
  }

  lemma TagsAreEdited(f: Fields)
    requires Editable(f)
    ensures CleanOwners(f) == Ok(EditedTags(f))
  {
    hide Kept, Unmanaged;
    assert CleanOwners(f).value == EditedTags(f);
  }

  lemma SectionsAreEdited(f: Fields)
    requires Editable(f)
    ensures var a := EditedTags(f);
            CleanSection(a, "grants").Ok? && CleanSection(CleanSection(a, "grants").value, "acls") == Ok(Edited(f))
  {
    hide Kept, Unmanaged, Contains;
    var a := EditedTags(f);
    assert "grants" in f ==> a["grants"] == f["grants"];
    assert "acls" in f ==> a["acls"] == f["acls"];
    var b := CleanSection(a, "grants").value;
    assert b == if "grants" in f then a["grants" := List(Kept(f["grants"].items).value)] else a;
    var c := CleanSection(b, "acls").value;
    assert c == if "acls" in f then b["acls" := List(Kept(f["acls"].items).value)] else b;
    assert c == Edited(f);
  }

  lemma EditsAreMade(f: Fields)
    ensures RemoveMesh(f).Ok? <==> Editable(f) && !Contains(Object(Edited(f)))
    ensures RemoveMesh(f).Ok? ==> RemoveMesh(f).value == Edited(f)
  {
    hide Kept, Contains, Unmanaged, CleanOwners, CleanSection, Edited, EditedTags;
    if Editable(f) {
      TagsAreEdited(f);
      SectionsAreEdited(f);
    } else if RemoveMesh(f).Ok? {
      RemovalByField(f);
    }
  }

  lemma SectionLeftovers(f: Fields, s: string)
    requires s in f && f[s].List? && Kept(f[s].items).Ok?
    ensures SectionIsClear(f, s) <==> !Contains(List(Kept(f[s].items).value))
  {
    hide Contains, Unmixed, OnlyForTheMesh, IsRule, Kept;
    var rules, kept := f[s].items, Kept(f[s].items).value;
    var at := KeptIsSifted(rules);
    ListContains(kept);
    if SectionIsClear(f, s) {
      forall i | 0 <= i < |kept| ensures !Contains(kept[i]) {
        assert at[i] in at;
      }
    }
    if !Contains(List(kept)) {
      forall k | 0 <= k < |rules| && !OnlyForTheMesh(rules[k]) ensures !Contains(rules[k]) {
        assert k in at;
        var i :| 0 <= i < |at| && at[i] == k;
        assert kept[i] == rules[k];
      }
    }
  }

  lemma ListContains(items: seq<Json>)
    ensures Contains(List(items)) <==> exists i | 0 <= i < |items| :: Contains(items[i])
  {
    assert List(items).items == items;
  }

  lemma ObjectContains(fields: map<string, Json>)
    ensures Contains(Object(fields)) <==> exists k | k in fields :: Mentions(k) || Contains(fields[k])
  {
    assert Object(fields).fields == fields;
  }

  lemma TagLeftovers(f: Fields, key: string)
    requires key in f && f[key].Object?
    ensures TagsAreClear(f, key) <==> !Contains(Object(Unmanaged(f[key].fields)))
  {
    hide Contains, Mentions;
    ObjectContains(Unmanaged(f[key].fields));
    var owners := f[key].fields;
    if !Contains(Object(Unmanaged(owners))) {
      forall t | t in owners && t != ServerTag && t != NodeTag && t != ClientTag
        ensures !Mentions(t) && !Contains(owners[t])
      {
        assert t in Unmanaged(owners);
      }
    }
  }

  lemma SectionNamesAreQuiet()
    ensures !Mentions("tagOwners") && !Mentions("tagowners") && !Mentions("grants") && !Mentions("acls")
  {
    ShortIsQuiet("tagOwners");
    ShortIsQuiet("tagowners");
    ShortIsQuiet("grants");
    ShortIsQuiet("acls");
  }

  lemma ShortIsQuiet(s: string)
    requires |s| < |MeshPrefix|
    ensures !Mentions(s)
  {
  }

  /** Removal succeeds exactly if there is one section of tag owners at most, every rule can be judged,
      and nothing that is left mentions the mesh. */
  lemma RemovalIsExact(f: Fields)
    ensures RemoveMesh(f).Ok? <==> Removable(f)
  {
    hide Kept, Contains, Mentions, RemoveMesh, SectionIsClear, TagsAreClear;
    EditsAreMade(f);
    SectionNamesAreQuiet();
    if Removable(f) { RemovableIsEditable(f); }
    if Editable(f) {
      ObjectContains(Edited(f));
      forall key | key in {"tagOwners", "tagowners"} && key in f
        ensures TagsAreClear(f, key) <==> !Contains(Edited(f)[key])
      {
        TagLeftovers(f, key);
      }
      forall s | s in {"grants", "acls"} && s in f ensures SectionIsClear(f, s) <==> !Contains(Edited(f)[s]) {
        SectionLeftovers(f, s);
      }
      AbsentIsClear(f);
      if !Contains(Object(Edited(f))) {
        forall k | k in f ensures !Mentions(k) && !Contains(Edited(f)[k]) {
          assert k in Edited(f);
        }
      }
    }
  }

  lemma AbsentIsClear(f: Fields)
    ensures forall key | key !in f :: TagsAreClear(f, key) && SectionIsClear(f, key)
  {
  }

  lemma RemovableIsEditable(f: Fields)
    requires Removable(f)
    ensures Editable(f)
  {
    hide Contains, Mentions, Kept, Unmixed, IsRule, OnlyForTheMesh;
    forall s | s in {"grants", "acls"} && s in f ensures f[s].List? && Kept(f[s].items).Ok? {
      KeptWhenJudged(f[s].items);
    }
  }
}
