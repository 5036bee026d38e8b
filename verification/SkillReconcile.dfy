/**
 The skills of a Board's Hermes profile: the catalog reader, the toggle loop, and the check that must accept the loop's
 result.
 */
module SkillReconcile {
  import opened Runs
  import opened Sorting
  import opened CanonicalJson

  /**
   A catalog entry as Hermes sends it: the trimmed name, empty if it is not a string, and the flag if it is a boolean.
   */
  datatype Entry = Entry(name: Text, enabled: Option<bool>)

  datatype Skill = Skill(name: Text, enabled: bool, approved: bool, userManageable: bool)

  /** "hermes-agent" */
  const ESSENTIAL: Text := [0x68, 0x65, 0x72, 0x6D, 0x65, 0x73, 0x2D, 0x61, 0x67, 0x65, 0x6E, 0x74]

  predicate IsAlphaNumeric(u: Unit) {
    0x30 <= u <= 0x39 || 0x41 <= u <= 0x5A || 0x61 <= u <= 0x7A
  }

  predicate ValidName(name: Text) {
    && 1 <= |name| <= 160
    && IsAlphaNumeric(name[0])
    && forall u <- name :: IsAlphaNumeric(u) || u == 0x2E || u == 0x5F || u == 0x2D
  }

  predicate ValidEntry(e: Entry) {
    ValidName(e.name) && e.enabled.Some?
  }

  function ToSkill(e: Entry, approved: set<Text>): Skill {
    var userManageable := e.name != ESSENTIAL;
    Skill(e.name, e.enabled.GetOr(false), !userManageable || e.name in approved, userManageable)
  }

  function ToSkills(entries: seq<Entry>, approved: set<Text>): seq<Skill> {
    seq(|entries|, i requires 0 <= i < |entries| => ToSkill(entries[i], approved))
  }

  ghost predicate ValidCatalog(entries: seq<Entry>) {
    && (forall i :: 0 <= i < |entries| ==> ValidEntry(entries[i]))
    && (forall i, j :: 0 <= i < j < |entries| ==> entries[i].name != entries[j].name)
  }

  function BySkillName(): (Skill, Skill) -> bool {
    (a: Skill, b: Skill) => Less(a.name, b.name)
  }

  function ByText(): (Text, Text) -> bool {
    (a: Text, b: Text) => Less(a, b)
  }

  /** The catalog reader; None when it throws. */
  method SafeSkills(entries: seq<Entry>, approved: set<Text>) returns (skills: Option<seq<Skill>>)
    ensures skills.Some? <==> ValidCatalog(entries)
    ensures skills.Some? ==> skills.value == Sort(BySkillName(), ToSkills(entries, approved))
  {
    var seen: set<Text> := {};
    var read: seq<Skill> := [];
    for i := 0 to |entries|
      invariant ValidCatalog(entries[..i])
      invariant forall n :: n in seen <==> exists k :: 0 <= k < i && entries[k].name == n
      invariant read == ToSkills(entries[..i], approved)
    {
      var e := entries[i];
      if !ValidEntry(e) { return None; }
      if e.name in seen { return None; }
      seen := seen + {e.name};
      read := read + [ToSkill(e, approved)];
    }
    assert entries[..|entries|] == entries;
    return Some(Sort(BySkillName(), read));
  }

  // ----- the check

  function EnabledNames(skills: seq<Skill>): seq<Text> {
    if skills == [] then []
    else (if skills[0].enabled && skills[0].userManageable then [skills[0].name] else []) + EnabledNames(skills[1..])
  }

  /** The distinct elements of a list, each at its first place. */
  function Unique(names: seq<Text>): seq<Text> {
    if names == [] then []
    else
      var front := Unique(names[..|names| - 1]);
      if names[|names| - 1] in front then front else front + [names[|names| - 1]]
  }

  function Desired(policy: seq<Text>): seq<Text> {
    Sort(ByText(), Unique(policy))
  }

  /** The skills part of the profile inspection. */
  predicate SkillsCompliant(skills: seq<Skill>, policy: seq<Text>, approved: set<Text>) {
    var enabled := Sort(ByText(), EnabledNames(skills));
    var desired := Desired(policy);
    && (exists i :: 0 <= i < |skills| && skills[i].name == ESSENTIAL && skills[i].enabled && !skills[i].userManageable)
    && (forall i :: 0 <= i < |skills| ==> !skills[i].enabled || skills[i].approved)
    && |desired| == |enabled|
    && forall i :: 0 <= i < |desired| ==> desired[i] == enabled[i] && desired[i] in approved && desired[i] != ESSENTIAL
  }

  // ----- the toggle loop

  datatype Outcome = PolicyRejected | ResponseInvalid | ControlUnavailable | Reconciled

  function ShouldEnable(name: Text, policy: seq<Text>, approved: set<Text>): bool {
    name in policy && name in approved
  }

  /** The catalog in which every user-manageable skill of `done` has been switched to what the policy wants. */
  function Switched(entries: seq<Entry>, done: set<Text>, policy: seq<Text>, approved: set<Text>): seq<Entry> {
    seq(|entries|, i requires 0 <= i < |entries| =>
      if entries[i].name in done && entries[i].name != ESSENTIAL
      then entries[i].(enabled := Some(ShouldEnable(entries[i].name, policy, approved))) else entries[i])
  }

  function Toggled(entries: seq<Entry>, name: Text, enabled: bool): seq<Entry> {
    seq(|entries|, i requires 0 <= i < |entries| =>
      if entries[i].name == name then entries[i].(enabled := Some(enabled)) else entries[i])
  }

  /** The profile as Hermes keeps it. */
  class HermesProfile {
    var entries: seq<Entry>

    constructor (entries: seq<Entry>)
      ensures this.entries == entries
    {
      this.entries := entries;
    }

    method Toggle(name: Text, enabled: bool)
      modifies this
      ensures entries == Toggled(old(entries), name, enabled)
    {
      entries := Toggled(entries, name, enabled);
    }
  }

  function Names(skills: seq<Skill>): set<Text> {
    set s <- skills :: s.name
  }

  function EntryNames(entries: seq<Entry>): set<Text> {
    set e <- entries :: e.name
  }

  lemma CatalogSkill(entries: seq<Entry>, approved: set<Text>, skill: Skill) returns (j: nat)
    requires skill in Sort(BySkillName(), ToSkills(entries, approved))
    ensures j < |entries| && skill == ToSkill(entries[j], approved)
  {
    var skills := ToSkills(entries, approved);
    SortPermutes(BySkillName(), skills);
    PermutationHasSameElements(Sort(BySkillName(), skills), skills);
    assert skill in skills;
    j :| 0 <= j < |skills| && skills[j] == skill;
  }

  /** Switching one more skill is one toggle, or nothing where the flag is right already. */
  lemma SwitchOne(entries: seq<Entry>, done: set<Text>, policy: seq<Text>, approved: set<Text>, skill: Skill)
    requires ValidCatalog(entries) && skill in Sort(BySkillName(), ToSkills(entries, approved))
    ensures var shouldEnable := skill.name in policy && skill.approved;
      var before, after := Switched(entries, done, policy, approved),
          Switched(entries, done + {skill.name}, policy, approved);
      && (skill.userManageable ==> Toggled(before, skill.name, shouldEnable) == after)
      && (!skill.userManageable || skill.enabled == shouldEnable ==> before == after)
  {
    var j := CatalogSkill(entries, approved, skill);
    forall i | 0 <= i < |entries| && entries[i].name == skill.name ensures i == j {
    }
  }

  lemma NamesStep(skills: seq<Skill>, i: nat)
    requires i < |skills|
    ensures Names(skills[..i + 1]) == Names(skills[..i]) + {skills[i].name}
  {
  }

  lemma CatalogNames(entries: seq<Entry>, approved: set<Text>)
    ensures Names(Sort(BySkillName(), ToSkills(entries, approved))) == EntryNames(entries)
  {
    var skills := ToSkills(entries, approved);
    var sorted := Sort(BySkillName(), skills);
    SortPermutes(BySkillName(), skills);
    PermutationHasSameElements(sorted, skills);
    forall n ensures n in Names(sorted) <==> n in EntryNames(entries) {
      if n in Names(sorted) {
        var s :| s in sorted && s.name == n;
        assert s in skills;
        var j :| 0 <= j < |skills| && skills[j] == s;
        assert entries[j] in entries;
      }
      if n in EntryNames(entries) {
        var j :| 0 <= j < |entries| && entries[j].name == n;
        assert skills[j] in skills && skills[j] in sorted;
      }
    }
  }

  ghost predicate PartlySwitched(before: seq<Entry>, after: seq<Entry>, policy: seq<Text>, approved: set<Text>) {
    exists done :: after == Switched(before, done, policy, approved)
  }

  /**
   The skills part of the reconciliation; request number `failsAt`, if it is reached, is not confirmed, and is applied
   or not.
   */
  method Reconcile(h: HermesProfile, policy: seq<Text>, approved: set<Text>, failsAt: nat, applied: bool)
      returns (outcome: Outcome)
    modifies h
    ensures outcome == PolicyRejected <==> exists n :: n in policy && (n == ESSENTIAL || n !in approved)
    ensures outcome != PolicyRejected ==> (outcome == ResponseInvalid <==> !ValidCatalog(old(h.entries)))
    ensures outcome in {PolicyRejected, ResponseInvalid} ==> h.entries == old(h.entries)
    ensures outcome == Reconciled ==>
        h.entries == Switched(old(h.entries), EntryNames(old(h.entries)), policy, approved)
    ensures PartlySwitched(old(h.entries), h.entries, policy, approved)
  {
    assert h.entries == Switched(h.entries, {}, policy, approved);
    if exists n :: n in policy && (n == ESSENTIAL || n !in approved) {
      return PolicyRejected;
    }
    var catalog := SafeSkills(h.entries, approved);
    if catalog.None? { return ResponseInvalid; }
    CatalogNames(h.entries, approved);
    var completed := ToggleAll(h, catalog.value, policy, approved, failsAt, applied);
    return if completed then Reconciled else ControlUnavailable;
  }

  method ToggleAll(h: HermesProfile, catalog: seq<Skill>, policy: seq<Text>, approved: set<Text>, failsAt: nat,
      applied: bool)
    returns (completed: bool)
    requires ValidCatalog(h.entries) && catalog == Sort(BySkillName(), ToSkills(h.entries, approved))
    modifies h
    ensures completed ==> h.entries == Switched(old(h.entries), Names(catalog), policy, approved)
    ensures PartlySwitched(old(h.entries), h.entries, policy, approved)
  {
    ghost var before := h.entries;
    var sent := 0;
    assert catalog[..|catalog|] == catalog && h.entries == Switched(before, {}, policy, approved);
    for i := 0 to |catalog|
      invariant sent <= failsAt
      invariant h.entries == Switched(before, Names(catalog[..i]), policy, approved)
    {
      var skill := catalog[i];
      SwitchOne(before, Names(catalog[..i]), policy, approved, skill);
      NamesStep(catalog, i);
      if !skill.userManageable { continue; }
      var shouldEnable := skill.name in policy && skill.approved;
      if skill.enabled == shouldEnable { continue; }
      if sent < failsAt || applied {
        h.Toggle(skill.name, shouldEnable);
      }
      if sent == failsAt { return false; }
      sent := sent + 1;
    }
    return true;
  }

  // ----- the loop's result passes the check

  lemma TextIsOrdered()
    ensures IsOrder(ByText())
  {
    var before := ByText();
    forall a: Text, b: Text | before(a, b) ensures !before(b, a) {
      LessIsTotal(a, b);
    }
    forall a: Text, b: Text, c: Text | !before(b, a) && !before(c, b) ensures !before(c, a) {
      PrecedesIsTransitive(false, a, b, c);
    }
  }

  ghost predicate NoRepeats(names: seq<Text>) {
    forall i, j :: 0 <= i < j < |names| ==> names[i] != names[j]
  }

  lemma {:induction false} UniqueIs(names: seq<Text>)
    ensures NoRepeats(Unique(names)) && SameElements(Unique(names), names)
    decreases |names|
  {
    if names != [] {
      var front, last := names[..|names| - 1], names[|names| - 1];
      UniqueIs(front);
      assert names == front + [last];
    }
  }

  lemma SortedNames(names: seq<Text>)
    requires NoRepeats(names)
    ensures Ascending(ByText(), Sort(ByText(), names)) && SameElements(Sort(ByText(), names), names)
  {
    var sorted := Sort(ByText(), names);
    TextIsOrdered();
    SortPermutes(ByText(), names);
    SortSorts(ByText(), names);
    PermutationKeepsDistinct((n: Text) => n, names, sorted);
    forall i, j | 0 <= i < j < |sorted| ensures ByText()(sorted[i], sorted[j]) {
      assert !ByText()(sorted[j], sorted[i]);
      LessIsTotal(sorted[i], sorted[j]);
    }
  }

  lemma NoRepeatsCons(n: Text, names: seq<Text>)
    requires NoRepeats(names) && n !in names
    ensures NoRepeats([n] + names) && NoRepeats([] + names)
  {
  }

  lemma {:induction false} EnabledNamesAre(skills: seq<Skill>)
    ensures forall n :: n in EnabledNames(skills) <==> exists s ::
        s in skills && s.name == n && s.enabled && s.userManageable
    ensures DistinctBy(SkillName(), skills) ==> NoRepeats(EnabledNames(skills))
    decreases |skills|
  {
    if skills != [] {
      var rest := skills[1..];
      EnabledNamesAre(rest);
      assert forall s :: s in skills <==> s == skills[0] || s in rest;
      if DistinctBy(SkillName(), skills) {
        assert forall i :: 0 <= i < |rest| ==> rest[i] == skills[i + 1];
        assert forall n :: n in EnabledNames(rest) ==> n != skills[0].name;
        NoRepeatsCons(skills[0].name, EnabledNames(rest));
      }
    }
  }

  /** Elementwise equality of the two sorted lists is equality of the two sets. */
  lemma ListsEqualIffSetsEqual(a: seq<Text>, b: seq<Text>)
    requires Ascending(ByText(), a) && Ascending(ByText(), b)
    ensures a == b <==> SameElements(a, b)
  {
    TextIsOrdered();
    if SameElements(a, b) {
      AscendingIsUnique(ByText(), a, b);
    }
  }

  /** What the catalog reader returns once the loop is through. */
  function AfterLoop(entries: seq<Entry>, policy: seq<Text>, approved: set<Text>): seq<Skill> {
    Sort(BySkillName(), ToSkills(Switched(entries, EntryNames(entries), policy, approved), approved))
  }

  ghost predicate Accepted(policy: seq<Text>, approved: set<Text>) {
    forall n :: n in policy ==> n != ESSENTIAL && n in approved
  }

  /**
   The skill that an entry becomes: the essential one as it was, any other enabled exactly when the policy wants it.
   */
  function SkillOf(e: Entry, policy: seq<Text>, approved: set<Text>): Skill {
    Skill(e.name, if e.name == ESSENTIAL then e.enabled.GetOr(false) else e.name in policy,
      e.name == ESSENTIAL || e.name in approved, e.name != ESSENTIAL)
  }

  lemma EntryAfterLoop(entries: seq<Entry>, policy: seq<Text>, approved: set<Text>, j: nat)
    requires Accepted(policy, approved) && j < |entries|
    ensures ToSkills(Switched(entries, EntryNames(entries), policy, approved), approved)[j] ==
        SkillOf(entries[j], policy, approved)
  {
  }

  lemma SkillAfterLoop(entries: seq<Entry>, policy: seq<Text>, approved: set<Text>, s: Skill)
    requires Accepted(policy, approved)
    ensures s in AfterLoop(entries, policy, approved) <==>
        exists j :: 0 <= j < |entries| && s == SkillOf(entries[j], policy, approved)
  {
    var skills := ToSkills(Switched(entries, EntryNames(entries), policy, approved), approved);
    SortPermutes(BySkillName(), skills);
    PermutationHasSameElements(AfterLoop(entries, policy, approved), skills);
    forall j | 0 <= j < |entries| ensures skills[j] == SkillOf(entries[j], policy, approved) {
      EntryAfterLoop(entries, policy, approved, j);
    }
    if s in skills {
      var j :| 0 <= j < |skills| && skills[j] == s;
    }
    if j :| 0 <= j < |entries| && s == SkillOf(entries[j], policy, approved) {
      assert skills[j] == s;
    }
  }

  function SkillName(): Skill -> Text {
    (s: Skill) => s.name
  }

  lemma SkillNamesDiffer(entries: seq<Entry>, policy: seq<Text>, approved: set<Text>)
    requires ValidCatalog(entries)
    ensures DistinctBy(SkillName(), ToSkills(Switched(entries, EntryNames(entries), policy, approved), approved))
  {
  }

  lemma AfterLoopNamesDiffer(entries: seq<Entry>, policy: seq<Text>, approved: set<Text>)
    requires ValidCatalog(entries)
    ensures DistinctBy(SkillName(), AfterLoop(entries, policy, approved))
  {
    var plain := ToSkills(Switched(entries, EntryNames(entries), policy, approved), approved);
    SkillNamesDiffer(entries, policy, approved);
    SortPermutes(BySkillName(), plain);
    PermutationKeepsDistinct(SkillName(), plain, AfterLoop(entries, policy, approved));
  }

  /** After the loop, exactly the catalog's share of the desired skills is enabled. */
  lemma EnabledAfterLoop(entries: seq<Entry>, policy: seq<Text>, approved: set<Text>, n: Text)
    requires ValidCatalog(entries) && Accepted(policy, approved)
    ensures n in EnabledNames(AfterLoop(entries, policy, approved)) <==> n in policy && n in EntryNames(entries)
  {
    var skills := AfterLoop(entries, policy, approved);
    EnabledNamesAre(skills);
    if n in EnabledNames(skills) {
      var s :| s in skills && s.name == n && s.enabled && s.userManageable;
      SkillAfterLoop(entries, policy, approved, s);
    }
    if n in policy && n in EntryNames(entries) {
      var j :| 0 <= j < |entries| && entries[j].name == n;
      var s := Skill(n, true, true, true);
      assert s == SkillOf(entries[j], policy, approved);
      SkillAfterLoop(entries, policy, approved, s);
    }
  }

  lemma ShareIsAllIff(desired: seq<Text>, enabled: seq<Text>, policy: seq<Text>, offered: set<Text>)
    requires (forall n :: n in enabled <==> n in policy && n in offered) && SameElements(desired, policy)
    ensures SameElements(desired, enabled) <==> forall n :: n in policy ==> n in offered
  {
  }

  /**
   The check accepts the loop's result exactly when the catalog offers every desired skill and the essential one is
   enabled.
   */
  lemma LoopResultIsCompliantIff(entries: seq<Entry>, policy: seq<Text>, approved: set<Text>)
    requires ValidCatalog(entries) && Accepted(policy, approved)
    ensures SkillsCompliant(AfterLoop(entries, policy, approved), policy, approved) <==>
      (forall n :: n in policy ==> n in EntryNames(entries)) && Entry(ESSENTIAL, Some(true)) in entries
  {
    var skills := AfterLoop(entries, policy, approved);
    var enabled, desired := Sort(ByText(), EnabledNames(skills)), Desired(policy);
    UniqueIs(policy);
    SortedNames(Unique(policy));
    AfterLoopNamesDiffer(entries, policy, approved);
    EnabledNamesAre(skills);
    SortedNames(EnabledNames(skills));
    ListsEqualIffSetsEqual(desired, enabled);
    forall n ensures n in enabled <==> n in policy && n in EntryNames(entries) {
      EnabledAfterLoop(entries, policy, approved, n);
    }
    ShareIsAllIff(desired, enabled, policy, EntryNames(entries));
    EssentialAfterLoop(entries, policy, approved);
    assert forall i :: 0 <= i < |desired| ==> desired[i] in desired;
  }

  lemma EssentialAfterLoop(entries: seq<Entry>, policy: seq<Text>, approved: set<Text>)
    requires ValidCatalog(entries) && Accepted(policy, approved)
    ensures var skills := AfterLoop(entries, policy, approved);
      && (forall i :: 0 <= i < |skills| ==> !skills[i].enabled || skills[i].approved)
      && ((exists i ::
              0 <= i < |skills| && skills[i].name == ESSENTIAL && skills[i].enabled && !skills[i].userManageable) <==>
          Entry(ESSENTIAL, Some(true)) in entries)
  {
    var skills := AfterLoop(entries, policy, approved);
    forall i | 0 <= i < |skills| ensures !skills[i].enabled || skills[i].approved {
      SkillAfterLoop(entries, policy, approved, skills[i]);
    }
    var essential := Skill(ESSENTIAL, true, true, false);
    SkillAfterLoop(entries, policy, approved, essential);
    if Entry(ESSENTIAL, Some(true)) in entries {
      var j :| 0 <= j < |entries| && entries[j] == Entry(ESSENTIAL, Some(true));
      assert essential == SkillOf(entries[j], policy, approved);
      var i :| 0 <= i < |skills| && skills[i] == essential;
    }
    forall i | 0 <= i < |skills| && skills[i].name == ESSENTIAL && skills[i].enabled && !skills[i].userManageable
      ensures Entry(ESSENTIAL, Some(true)) in entries
    {
      SkillAfterLoop(entries, policy, approved, skills[i]);
      var j :| 0 <= j < |entries| && skills[i] == SkillOf(entries[j], policy, approved);
      assert entries[j] == Entry(ESSENTIAL, Some(true));
    }
  }
}
