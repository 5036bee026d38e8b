/** The description by which a Hermes profile is recognised as one Board's own: its printer and its two readers. */
module ProfileDescription {
  import opened Runs

  // ----- field alphabets

  predicate IsHex(c: char) {
    'a' <= c <= 'f' || '0' <= c <= '9'
  }

  predicate IsAlphaNumeric(c: char) {
    'a' <= c <= 'z' || 'A' <= c <= 'Z' || '0' <= c <= '9'
  }

  predicate AllHex(s: string, length: nat) {
    |s| == length && forall c <- s :: IsHex(c)
  }

  predicate StartsWith(s: string, prefix: string) {
    |prefix| <= |s| && s[..|prefix|] == prefix
  }

  predicate Tagged(s: string, tag: string, digits: nat) {
    StartsWith(s, tag) && AllHex(s[|tag|..], digits)
  }

  predicate IsName(s: string, limit: nat, extra: string) {
    1 <= |s| <= limit && IsAlphaNumeric(s[0]) && forall c <- s[1..] :: IsAlphaNumeric(c) || c in extra
  }

  datatype Kind = OwnerMarker | MemoryScope | KanbanRef | Digest | Provider | Model

  predicate Fits(kind: Kind, s: string) {
    match kind
    case OwnerMarker => Tagged(s, "opb_owner_", 40)
    case MemoryScope => Tagged(s, "opb_mem_", 40)
    case KanbanRef => Tagged(s, "opk_", 24)
    case Digest => AllHex(s, 64)
    case Provider => IsName(s, 100, "._:-")
    case Model => IsName(s, 200, "._:/-")
  }

  predicate IsManifest(s: string) {
    s == "pending" || Fits(Digest, s)
  }

  // ----- the printer

  datatype Contract = Contract(
    owner: string, memory: string, kanban: string, policy: string, provider: string, model: string, skills: string)

  datatype Binding = Binding(owner: string, memory: string, kanban: string)

  datatype Slot = Slot(literal: string, kind: Kind)

  const SLOTS := [
    Slot("OriginPost Board runtime; owner=", OwnerMarker), Slot("; memory=", MemoryScope), Slot("; kanban=", KanbanRef),
    Slot("; policy=", Digest), Slot("; provider=", Provider), Slot("; model=", Model), Slot("; skills=", Digest)]

  const MANIFEST := "; skill_manifest="

  function Fields(c: Contract): seq<string> {
    [c.owner, c.memory, c.kanban, c.policy, c.provider, c.model, c.skills]
  }

  function FromFields(f: seq<string>): Contract
    requires |f| == 7
  {
    Contract(f[0], f[1], f[2], f[3], f[4], f[5], f[6])
  }

  function Join(slots: seq<Slot>, fields: seq<string>): string
    requires |slots| == |fields|
  {
    if slots == [] then "" else slots[0].literal + fields[0] + Join(slots[1..], fields[1..])
  }

  function Managed(c: Contract, manifest: string): string {
    Join(SLOTS, Fields(c)) + MANIFEST + manifest + "."
  }

  function Archived(owner: string, kanban: string): string {
    "OriginPost Board runtime; owner=" + owner + "; kanban=" + kanban + "; state=archived."
  }

  ghost predicate AllFit(slots: seq<Slot>, fields: seq<string>) {
    |slots| == |fields| && forall i :: 0 <= i < |slots| ==> Fits(slots[i].kind, fields[i])
  }

  ghost predicate WellFormed(c: Contract) {
    AllFit(SLOTS, Fields(c))
  }

  // ----- the reader of managed descriptions

  /** The position of the first semicolon, or the end. */
  function UntilSemicolon(s: string): (n: nat)
    ensures n <= |s| && ';' !in s[..n] && (n < |s| ==> s[n] == ';')
  {
    if s == "" || s[0] == ';' then 0 else UntilSemicolon(s[1..]) + 1
  }

  datatype Matched = Matched(fields: seq<string>, rest: string)

  function MatchSlots(value: string, slots: seq<Slot>): Option<Matched> {
    if slots == [] then Some(Matched([], value))
    else if !StartsWith(value, slots[0].literal) then None
    else
      var body := value[|slots[0].literal|..];
      var n := UntilSemicolon(body);
      if !Fits(slots[0].kind, body[..n]) then None
      else
        var rest := MatchSlots(body[n..], slots[1..]);
        if rest.None? then None else Some(Matched([body[..n]] + rest.value.fields, rest.value.rest))
  }

  datatype Read = Read(contract: Contract, manifest: string)

  /** What the pattern of a managed description matches. */
  function ReadManaged(value: string): Option<Read> {
    match MatchSlots(value, SLOTS)
    case None => None
    case Some(Matched(fields, rest)) =>
      if |fields| != 7 || !StartsWith(rest, MANIFEST) then None
      else
        var tail := rest[|MANIFEST|..];
        if tail == "" || tail[|tail| - 1] != '.' || !IsManifest(tail[..|tail| - 1]) then None
        else Some(Read(FromFields(fields), tail[..|tail| - 1]))
  }

  predicate OwnedByBoard(value: string, b: Binding) {
    value == Archived(b.owner, b.kanban) ||
    match ReadManaged(value)
    case None => false
    case Some(Read(c, _)) => c.owner == b.owner && c.memory == b.memory && c.kanban == b.kanban
  }

  // ----- the reader of sealed manifests

  /** Replace the first occurrence. */
  function ReplaceFirst(s: string, pattern: string, substitute: string): string {
    if StartsWith(s, pattern) then substitute + s[|pattern|..]
    else if s == "" then "" else [s[0]] + ReplaceFirst(s[1..], pattern, substitute)
  }

  function SealedPrefix(c: Contract): string {
    ReplaceFirst(Managed(c, ""), "skill_manifest=.", "skill_manifest=")
  }

  function SealedSkillManifest(value: string, c: Contract): Option<string> {
    var prefix := SealedPrefix(c);
    if !StartsWith(value, prefix) then None
    else
      var suffix := value[|prefix|..];
      if |suffix| == 65 && suffix[64] == '.' && AllHex(suffix[..64], 64) then Some(suffix[..64]) else None
  }

  // ----- fields hold neither separator

  predicate Plain(s: string) {
    s != "" && s[0] != '.' && ';' !in s && '=' !in s
  }

  lemma FieldsArePlain(kind: Kind, s: string)
    requires Fits(kind, s)
    ensures Plain(s)
  {
    match kind
    case OwnerMarker => TaggedIsPlain(s, "opb_owner_", 40);
    case MemoryScope => TaggedIsPlain(s, "opb_mem_", 40);
    case KanbanRef => TaggedIsPlain(s, "opk_", 24);
    case Digest => assert s[0] in s && forall c <- s :: IsHex(c);
    case Provider => NameIsPlain(s, 100, "._:-");
    case Model => NameIsPlain(s, 200, "._:/-");
  }

  lemma TaggedIsPlain(s: string, tag: string, digits: nat)
    requires Tagged(s, tag, digits) && Plain(tag)
    ensures Plain(s)
  {
    assert s == tag + s[|tag|..];
  }

  lemma NameIsPlain(s: string, limit: nat, extra: string)
    requires IsName(s, limit, extra) && ';' !in extra && '=' !in extra
    ensures Plain(s)
  {
  }

  // ----- reading undoes printing

  lemma Reassociate(a: string, b: string, c: string, d: string)
    ensures a + (b + (c + d)) == a + b + c + d
  {
  }

  lemma {:induction false} UntilSemicolonIs(field: string, rest: string)
    requires ';' !in field && EndsField(rest)
    ensures UntilSemicolon(field + rest) == |field|
    decreases |field|
  {
    if field == "" {
      assert field + rest == rest;
    } else {
      assert field[0] in field && (field + rest)[0] == field[0];
      assert (field + rest)[1..] == field[1..] + rest;
      UntilSemicolonIs(field[1..], rest);
    }
  }

  predicate EndsField(rest: string) {
    rest == "" || rest[0] == ';'
  }

  /** Later slots begin with the separator that ends the field before them. */
  predicate Separated(slots: seq<Slot>) {
    forall i :: 0 <= i < |slots| ==> slots[i].literal != "" && (i > 0 ==> slots[i].literal[0] == ';')
  }

  /** One slot of a text that was printed slot by slot. */
  lemma MatchStep(slots: seq<Slot>, field: string, tail: string)
    requires slots != [] && Fits(slots[0].kind, field) && EndsField(tail)
    ensures var rest := MatchSlots(tail, slots[1..]);
      MatchSlots(slots[0].literal + (field + tail), slots) ==
        if rest.None? then None else Some(Matched([field] + rest.value.fields, rest.value.rest))
  {
    var literal := slots[0].literal;
    var value := literal + (field + tail);
    FieldsArePlain(slots[0].kind, field);
    UntilSemicolonIs(field, tail);
    assert value[..|literal|] == literal && value[|literal|..] == field + tail;
    assert (field + tail)[..|field|] == field && (field + tail)[|field|..] == tail;
  }

  lemma JoinOne(slots: seq<Slot>, field: string, fields: seq<string>, rest: string)
    requires slots != [] && |slots| == |fields| + 1
    ensures Join(slots, [field] + fields) + rest == slots[0].literal + (field + (Join(slots[1..], fields) + rest))
  {
    assert ([field] + fields)[1..] == fields;
    Reassociate(slots[0].literal, field, Join(slots[1..], fields), rest);
  }

  lemma {:induction false} MatchUndoesJoin(slots: seq<Slot>, fields: seq<string>, rest: string)
    requires Separated(slots) && AllFit(slots, fields) && EndsField(rest)
    ensures MatchSlots(Join(slots, fields) + rest, slots) == Some(Matched(fields, rest))
    decreases |slots|
  {
    if slots == [] {
      assert Join(slots, fields) + rest == rest;
    } else {
      assert fields == [fields[0]] + fields[1..];
      JoinOne(slots, fields[0], fields[1..], rest);
      TailEndsField(slots, fields, rest);
      MatchStep(slots, fields[0], Join(slots[1..], fields[1..]) + rest);
      MatchUndoesJoin(slots[1..], fields[1..], rest);
    }
  }

  lemma TailEndsField(slots: seq<Slot>, fields: seq<string>, rest: string)
    requires slots != [] && |slots| == |fields| && Separated(slots) && EndsField(rest)
    ensures EndsField(Join(slots[1..], fields[1..]) + rest)
  {
  }

  lemma MatchTakes(value: string, slots: seq<Slot>) returns (field: string, tail: string)
    requires slots != [] && MatchSlots(value, slots).Some?
    ensures Fits(slots[0].kind, field) && value == slots[0].literal + (field + tail)
    ensures MatchSlots(tail, slots[1..]).Some?
    ensures var rest := MatchSlots(tail, slots[1..]).value;
      MatchSlots(value, slots).value == Matched([field] + rest.fields, rest.rest)
  {
    var body := value[|slots[0].literal|..];
    var n := UntilSemicolon(body);
    field, tail := body[..n], body[n..];
    assert body == field + tail && value == slots[0].literal + body;
  }

  lemma FitOne(slots: seq<Slot>, field: string, fields: seq<string>)
    requires slots != [] && Fits(slots[0].kind, field) && AllFit(slots[1..], fields)
    ensures AllFit(slots, [field] + fields)
  {
  }

  lemma {:induction false} JoinUndoesMatch(value: string, slots: seq<Slot>)
    requires MatchSlots(value, slots).Some?
    ensures var m := MatchSlots(value, slots).value; AllFit(slots, m.fields) && value == Join(slots, m.fields) + m.rest
    decreases |slots|
  {
    var m := MatchSlots(value, slots).value;
    if slots == [] {
      assert Join(slots, m.fields) + m.rest == value;
    } else {
      var field, tail := MatchTakes(value, slots);
      JoinUndoesMatch(tail, slots[1..]);
      var rest := MatchSlots(tail, slots[1..]).value;
      FitOne(slots, field, rest.fields);
      JoinOne(slots, field, rest.fields, rest.rest);
    }
  }

  lemma SlotsAreSeparated()
    ensures Separated(SLOTS)
  {
  }

  lemma ReadUndoesPrint(c: Contract, manifest: string)
    requires WellFormed(c) && IsManifest(manifest)
    ensures ReadManaged(Managed(c, manifest)) == Some(Read(c, manifest))
  {
    SlotsAreSeparated();
    var rest := MANIFEST + (manifest + ".");
    Reassociate(Join(SLOTS, Fields(c)), MANIFEST, manifest, ".");
    MatchUndoesJoin(SLOTS, Fields(c), rest);
    Parts(MANIFEST, manifest + ".");
    Parts(manifest, ".");
  }

  lemma Parts(a: string, b: string)
    ensures (a + b)[..|a|] == a && (a + b)[|a|..] == b
  {
  }

  lemma FieldsOfSeven(f: seq<string>)
    requires |f| == 7
    ensures Fields(FromFields(f)) == f
  {
  }

  lemma ManifestEnds(tail: string)
    requires tail != "" && tail[|tail| - 1] == '.'
    ensures tail == tail[..|tail| - 1] + "."
  {
  }

  lemma PrintUndoesRead(value: string)
    requires ReadManaged(value).Some?
    ensures var r := ReadManaged(value).value;
        WellFormed(r.contract) && IsManifest(r.manifest) && value == Managed(r.contract, r.manifest)
  {
    JoinUndoesMatch(value, SLOTS);
    var m := MatchSlots(value, SLOTS).value;
    var tail := m.rest[|MANIFEST|..];
    FieldsOfSeven(m.fields);
    ManifestEnds(tail);
    PutTogether(value, m.fields, m.rest, tail);
  }

  lemma StartSplits(s: string, prefix: string)
    requires StartsWith(s, prefix)
    ensures s == prefix + s[|prefix|..]
  {
  }

  lemma PutTogether(value: string, fields: seq<string>, rest: string, tail: string)
    requires |fields| == 7 && value == Join(SLOTS, fields) + rest && StartsWith(rest, MANIFEST)
        && tail == rest[|MANIFEST|..]
    requires tail != "" && tail == tail[..|tail| - 1] + "."
    ensures value == Managed(FromFields(fields), tail[..|tail| - 1])
  {
    FieldsOfSeven(fields);
    StartSplits(rest, MANIFEST);
    Reassociate(Join(SLOTS, fields), MANIFEST, tail[..|tail| - 1], ".");
  }

  /** A description is read as a contract and a manifest exactly when it is their printed form. */
  lemma ReadManagedIff(value: string, c: Contract, manifest: string)
    ensures ReadManaged(value) == Some(Read(c, manifest)) <==>
        WellFormed(c) && IsManifest(manifest) && value == Managed(c, manifest)
  {
    if WellFormed(c) && IsManifest(manifest) && value == Managed(c, manifest) {
      ReadUndoesPrint(c, manifest);
    }
    if ReadManaged(value) == Some(Read(c, manifest)) {
      PrintUndoesRead(value);
    }
  }

  predicate PlainBinding(b: Binding) {
    Fits(OwnerMarker, b.owner) && Fits(MemoryScope, b.memory) && Fits(KanbanRef, b.kanban)
  }

  /**
   A managed description belongs to a Board exactly when owner, memory scope and kanban reference are all the Board's.
   */
  lemma ManagedIsOwnedIff(c: Contract, manifest: string, b: Binding)
    requires WellFormed(c) && IsManifest(manifest) && PlainBinding(b)
    ensures OwnedByBoard(Managed(c, manifest), b) <==> b == Binding(c.owner, c.memory, c.kanban)
  {
    ReadManagedIff(Managed(c, manifest), c, manifest);
    if Managed(c, manifest) == Archived(b.owner, b.kanban) {
      ArchivedIsNotManaged(b);
    }
  }

  lemma ArchivedIsNotManaged(b: Binding)
    requires PlainBinding(b)
    ensures ReadManaged(Archived(b.owner, b.kanban)).None?
  {
    var tail := b.kanban + "; state=archived.";
    var rest := "; kanban=" + tail;
    ArchivedSplits(b.owner, b.kanban);
    KanbanIsNotMemory(tail);
    MatchStep(SLOTS, b.owner, rest);
    assert SLOTS[1..][0].literal == "; memory=";
    assert MatchSlots(rest, SLOTS[1..]).None?;
  }

  lemma ArchivedSplits(owner: string, kanban: string)
    ensures Archived(owner, kanban) == SLOTS[0].literal + (owner + ("; kanban=" + (kanban + "; state=archived.")))
  {
  }

  lemma KanbanIsNotMemory(tail: string)
    ensures !StartsWith("; kanban=" + tail, "; memory=")
  {
  }

  /** An archived description belongs to a Board exactly when owner and kanban reference are the Board's. */
  lemma ArchivedIsOwnedIff(a: Binding, b: Binding)
    requires PlainBinding(a) && PlainBinding(b)
    ensures OwnedByBoard(Archived(a.owner, a.kanban), b) <==> a.owner == b.owner && a.kanban == b.kanban
  {
    ArchivedIsNotManaged(a);
    if Archived(a.owner, a.kanban) == Archived(b.owner, b.kanban) {
      var v := Archived(a.owner, a.kanban);
      assert a.owner == v[32..82] == b.owner;
      assert a.kanban == v[91..119] == b.kanban;
    }
  }

  // ----- the sealed manifest

  /** No equals sign is followed by a full stop. */
  ghost predicate NoEmptyField(s: string) {
    forall i :: 0 <= i < |s| - 1 ==> !(s[i] == '=' && s[i + 1] == '.')
  }

  ghost predicate GoodLiteral(s: string) {
    NoEmptyField(s) && s != "" && s[0] != '.'
  }

  lemma Joined(a: string, b: string)
    requires NoEmptyField(a) && NoEmptyField(b) && (b != "" ==> b[0] != '.')
    ensures NoEmptyField(a + b)
  {
  }

  lemma {:induction false} JoinHasNoEmptyField(slots: seq<Slot>, fields: seq<string>)
    requires AllFit(slots, fields) && forall i :: 0 <= i < |slots| ==> GoodLiteral(slots[i].literal)
    ensures NoEmptyField(Join(slots, fields)) && (slots != [] ==> Join(slots, fields)[0] != '.')
    decreases |slots|
  {
    if slots != [] {
      FieldsArePlain(slots[0].kind, fields[0]);
      assert forall i :: 0 <= i < |fields[0]| ==> fields[0][i] in fields[0];
      JoinHasNoEmptyField(slots[1..], fields[1..]);
      Joined(slots[0].literal, fields[0]);
      Joined(slots[0].literal + fields[0], Join(slots[1..], fields[1..]));
    }
  }

  /** Where no field is empty, the pattern occurs only at the very end. */
  lemma {:induction false} ReplaceHitsTheEnd(head: string, pattern: string, substitute: string)
    requires |pattern| >= 2 && pattern[|pattern| - 2] == '=' && pattern[|pattern| - 1] == '.'
    requires NoEmptyField(head + pattern[..|pattern| - 1])
    ensures ReplaceFirst(head + pattern, pattern, substitute) == head + substitute
    decreases |head|
  {
    var s := head + pattern;
    if head == "" {
      assert s == pattern && substitute + s[|pattern|..] == head + substitute;
    } else {
      var k := |pattern| - 2;
      var body := head + pattern[..|pattern| - 1];
      assert s[..|pattern|][k] == s[k] == body[k] && s[..|pattern|][k + 1] == s[k + 1] == body[k + 1];
      assert !StartsWith(s, pattern);
      assert s[1..] == head[1..] + pattern;
      forall i | 0 <= i < |body[1..]| - 1 ensures !(body[1..][i] == '=' && body[1..][i + 1] == '.') {
        assert body[1..][i] == body[i + 1] && body[1..][i + 1] == body[i + 2];
      }
      assert body[1..] == head[1..] + pattern[..|pattern| - 1];
      ReplaceHitsTheEnd(head[1..], pattern, substitute);
      assert [s[0]] + (head[1..] + substitute) == head + substitute;
    }
  }

  lemma EqualsAtTheEnd(head: string)
    requires head != "" && head[0] != '.' && '=' !in head
    ensures GoodLiteral(head + "=")
  {
  }

  lemma LiteralsAreGood()
    ensures forall i :: 0 <= i < |SLOTS| ==> GoodLiteral(SLOTS[i].literal)
  {
    var heads := ["OriginPost Board runtime; owner", "; memory", "; kanban", "; policy", "; provider", "; model",
        "; skills"];
    forall i | 0 <= i < |SLOTS| ensures GoodLiteral(SLOTS[i].literal) {
      assert SLOTS[i].literal == heads[i] + "=";
      EqualsAtTheEnd(heads[i]);
    }
  }

  /**
   The prefix ends right before the manifest, although it is found by replacing the first occurrence in a text that
   holds free fields.
   */
  lemma SealedPrefixIs(c: Contract)
    requires WellFormed(c)
    ensures SealedPrefix(c) == Join(SLOTS, Fields(c)) + MANIFEST
  {
    var pattern, joined := "skill_manifest=.", Join(SLOTS, Fields(c));
    var head := joined + "; ";
    LiteralsAreGood();
    JoinHasNoEmptyField(SLOTS, Fields(c));
    Joined(joined, "; skill_manifest=");
    assert head + pattern[..15] == joined + "; skill_manifest=";
    assert Managed(c, "") == head + pattern;
    ReplaceHitsTheEnd(head, pattern, "skill_manifest=");
    assert head + "skill_manifest=" == joined + MANIFEST;
  }

  /**
   A manifest is read from a description exactly when the description is the printed form of this very contract sealed
   with that digest.
   */
  lemma SealedSkillManifestIff(value: string, c: Contract, manifest: string)
    requires WellFormed(c)
    ensures SealedSkillManifest(value, c) == Some(manifest) <==> Fits(Digest, manifest) && value == Managed(c, manifest)
  {
    SealedPrefixIs(c);
    var prefix := SealedPrefix(c);
    if Fits(Digest, manifest) && value == Managed(c, manifest) {
      assert value == prefix + (manifest + ".");
      assert value[|prefix|..] == manifest + "." && (manifest + ".")[..64] == manifest;
    }
    if SealedSkillManifest(value, c) == Some(manifest) {
      assert value == prefix + value[|prefix|..] && value[|prefix|..] == manifest + ".";
    }
  }

  /** A profile that waits for its seal has no manifest. */
  lemma PendingIsNotSealed(c: Contract)
    requires WellFormed(c)
    ensures SealedSkillManifest(Managed(c, "pending"), c).None?
  {
    SealedPrefixIs(c);
    var prefix := SealedPrefix(c);
    assert Managed(c, "pending") == prefix + "pending.";
    assert (prefix + "pending.")[|prefix|..] == "pending.";
  }
}
