/**
 * The mission editor's descriptor logic: previews of long strings and of
 * subject groups, the lists of values a reference property can take, the
 * rules that decide which spacecraft properties apply, and the
 * normalisation and lookups of a property type.
 *
 * The mission JSON is given as records whose optional members are
 * `Option`s; a number member that is absent or 0 (both falsy in
 * JavaScript) is `None` or `Some(0)`.
 */
module EditorDescriptors {
  import opened Common

  // ---------------------------------------------------------------------
  // String previews

  /** How many characters of a long text a preview shows. */
  const PREVIEW_LENGTH: nat := 12

  /**
   * `_getStringPreview`: "..." for the empty string, the string itself when
   * it fits, and otherwise the first PREVIEW_LENGTH characters followed by
   * "...".
   */
  function StringPreview(s: string): (r: string)
    ensures 0 < |s| <= PREVIEW_LENGTH ==> r == s
    ensures s == [] ==> r == "..."
    ensures |s| > PREVIEW_LENGTH ==> |r| == PREVIEW_LENGTH + 3 && r[..PREVIEW_LENGTH] == s[..PREVIEW_LENGTH] && r[PREVIEW_LENGTH..] == "..."
    ensures |r| <= PREVIEW_LENGTH + 3
  {
    if |s| > 0 then
      (if |s| > PREVIEW_LENGTH then s[..PREVIEW_LENGTH] + "..." else s)
    else "..."
  }

  // ---------------------------------------------------------------------
  // Reference values

  /** JavaScript truthiness of an optional integer: absent and 0 are false. */
  predicate TruthyInt(n: Option<int>) {
    n.Some? && n.value != 0
  }

  /** How many times `for (j = 0; j < n; j++)` runs. */
  function Times(n: int): nat {
    if n > 0 then n else 0
  }

  /** The members of a spacecraft entry of a mission that the reference lists read. */
  datatype Craft = Craft(name: Option<string>, squad: Option<string>, count: Option<int>, names: Option<seq<string>>)

  /** The names of the first n members of a squad: "squad 1" to "squad n". */
  function SquadMembers(squad: string, n: nat): (r: seq<string>)
    ensures |r| == n
  {
    seq(n, j requires 0 <= j < n => squad + " " + NatToString(j + 1))
  }

  /**
   * What one spacecraft entry adds to the spacecraft reference values: its
   * name; else for a squad with a count the numbered members, for a bare
   * squad the squad; else with a count and names as many names as both
   * allow.
   */
  function CraftValues(c: Craft): seq<string> {
    if Truthy(c.name) then [c.name.value]
    else if Truthy(c.squad) then
      (if TruthyInt(c.count) then SquadMembers(c.squad.value, Times(c.count.value)) else [c.squad.value])
    else if TruthyInt(c.count) && c.names.Some? then
      c.names.value[..Times(if c.count.value < |c.names.value| then c.count.value else |c.names.value|)]
    else []
  }

  /** The spacecraft reference values of a list of entries, entry by entry. */
  function CraftsValues(cs: seq<Craft>): seq<string>
    decreases |cs|
  {
    if cs == [] then [] else CraftsValues(cs[..|cs| - 1]) + CraftValues(cs[|cs| - 1])
  }

  /** SPACECRAFT_REFERENCE.getValues: the values every spacecraft entry adds, in order. */
  method SpacecraftValues(spacecrafts: Option<seq<Craft>>) returns (result: seq<string>)
    ensures result == if spacecrafts.Some? then CraftsValues(spacecrafts.value) else []
  {
    result := [];
    if spacecrafts.Some? {
      var cs := spacecrafts.value;
      for i := 0 to |cs|
        invariant result == CraftsValues(cs[..i])
      {
        assert cs[..i + 1][..i] == cs[..i];
        result := AddCraftValues(result, cs[i]);
      }
      assert cs[..|cs|] == cs;
    }
  }

  /** The body of the getValues loop for one spacecraft entry. */
  method AddCraftValues(acc: seq<string>, c: Craft) returns (result: seq<string>)
    ensures result == acc + CraftValues(c)
  {
    result := acc;
    if Truthy(c.name) {
      result := result + [c.name.value];
    } else if Truthy(c.squad) {
      if TruthyInt(c.count) {
        var j := 0;
        while j < c.count.value
          invariant 0 <= j <= Times(c.count.value)
          invariant result == acc + SquadMembers(c.squad.value, j)
        {
          assert SquadMembers(c.squad.value, j + 1) == SquadMembers(c.squad.value, j) + [c.squad.value + " " + NatToString(j + 1)];
          result := result + [c.squad.value + " " + NatToString(j + 1)];
          j := j + 1;
        }
      } else {
        result := result + [c.squad.value];
      }
    } else if TruthyInt(c.count) && c.names.Some? {
      var names := c.names.value;
      var n := if c.count.value < |names| then c.count.value else |names|;
      var j := 0;
      while j < n
        invariant 0 <= j <= Times(n)
        invariant result == acc + names[..j]
      {
        assert names[..j + 1] == names[..j] + [names[j]];
        result := result + [names[j]];
        j := j + 1;
      }
    }
  }

  /** The values of a list of entries split anywhere are the values of the two parts, in order. */
  lemma {:induction false} CraftsValuesConcat(a: seq<Craft>, b: seq<Craft>)
    ensures CraftsValues(a + b) == CraftsValues(a) + CraftsValues(b)
    decreases |b|
  {
    if b == [] {
      assert a + b == a;
    } else {
      assert (a + b)[..|a + b| - 1] == a + b[..|b| - 1];
      CraftsValuesConcat(a, b[..|b| - 1]);
      AppendAssoc(CraftsValues(a), CraftsValues(b[..|b| - 1]), CraftValues(b[|b| - 1]));
    }
  }

  /**
   * The numbered members of a squad: one per count, each the squad's name,
   * a space and its number from 1, and no two alike.
   */
  lemma SquadMembersDistinct(squad: string, n: nat)
    ensures forall j :: 0 <= j < n ==> SquadMembers(squad, n)[j][..|squad| + 1] == squad + " "
    ensures forall j, k :: 0 <= j < k < n ==> SquadMembers(squad, n)[j] != SquadMembers(squad, n)[k]
  {
    var r := SquadMembers(squad, n);
    forall j, k | 0 <= j < k < n
      ensures r[j] != r[k]
    {
      assert r[j][|squad| + 1..] == NatToString(j + 1);
      assert r[k][|squad| + 1..] == NatToString(k + 1);
    }
    forall j | 0 <= j < n
      ensures r[j][..|squad| + 1] == squad + " "
    {
      assert r[j] == (squad + " ") + NatToString(j + 1);
    }
  }

  /** The index of the first space of s, or |s| when there is none. */
  function FirstSpace(s: string): (i: nat)
    ensures i <= |s|
    ensures forall k :: 0 <= k < i ==> s[k] != ' '
    ensures i < |s| ==> s[i] == ' '
    decreases |s|
  {
    if s == [] then 0 else if s[0] == ' ' then 0 else 1 + FirstSpace(s[1..])
  }

  /** The squad a squad member's designation names: its text before the first space. */
  function SquadName(s: string): (r: string)
    ensures ' ' !in r
    ensures ' ' !in s ==> r == s
  {
    s[..FirstSpace(s)]
  }

  /** What one designation adds to the squad values found so far. */
  function SquadStep(acc: seq<string>, squad: string): seq<string> {
    if ' ' !in squad then acc + [squad]
    else if SquadName(squad) in acc then acc
    else acc + [SquadName(squad)]
  }

  /** The squad reference values of a list of entries. */
  function SquadsOf(cs: seq<Craft>): seq<string>
    decreases |cs|
  {
    if cs == [] then []
    else
      var acc := SquadsOf(cs[..|cs| - 1]);
      if Truthy(cs[|cs| - 1].squad) then SquadStep(acc, cs[|cs| - 1].squad.value) else acc
  }

  /**
   * SQUAD_REFERENCE.getValues: each squad without a space, even a repeated
   * one; for a designation with a space, its squad name the first time it
   * appears.
   */
  method SquadValues(spacecrafts: Option<seq<Craft>>) returns (result: seq<string>)
    ensures result == if spacecrafts.Some? then SquadsOf(spacecrafts.value) else []
  {
    result := [];
    if spacecrafts.Some? {
      var cs := spacecrafts.value;
      for i := 0 to |cs|
        invariant result == SquadsOf(cs[..i])
      {
        assert cs[..i + 1][..i] == cs[..i];
        var squad := cs[i].squad;
        if Truthy(squad) {
          if ' ' !in squad.value {
            result := result + [squad.value];
          } else {
            var name := squad.value[..FirstSpace(squad.value)];
            if name !in result {
              result := result + [name];
            }
          }
        }
      }
      assert cs[..|cs|] == cs;
    }
  }

  /**
   * The squad values are exactly the squad names of the entries that have a
   * squad: every such name is listed, nothing else is, and no value holds a
   * space.
   */
  lemma {:induction false} SquadsListed(cs: seq<Craft>)
    ensures forall i :: 0 <= i < |cs| && Truthy(cs[i].squad) ==> SquadName(cs[i].squad.value) in SquadsOf(cs)
    ensures forall v :: v in SquadsOf(cs) ==> exists i :: 0 <= i < |cs| && Truthy(cs[i].squad) && v == SquadName(cs[i].squad.value)
    ensures forall v :: v in SquadsOf(cs) ==> ' ' !in v
    decreases |cs|
  {
    if cs != [] {
      var init := cs[..|cs| - 1];
      SquadsListed(init);
      assert forall i :: 0 <= i < |init| ==> init[i] == cs[i];
    }
  }

  /** A team of a mission: its id and its name. */
  datatype Team = Team(id: Option<string>, name: Option<string>)

  /** An event of a mission, known by its name. */
  datatype Event = Event(name: Option<string>)

  /** The elements of xs that `keep` accepts, mapped by f, in order. */
  function FilterMap<T, U>(xs: seq<T>, keep: T -> bool, f: T -> U): seq<U>
    decreases |xs|
  {
    if xs == [] then []
    else FilterMap(xs[..|xs| - 1], keep, f) + (if keep(xs[|xs| - 1]) then [f(xs[|xs| - 1])] else [])
  }

  /** A filter-map keeps order across any split, keeps what it accepts, and never grows. */
  lemma {:induction false} FilterMapConcat<T, U>(a: seq<T>, b: seq<T>, keep: T -> bool, f: T -> U)
    ensures FilterMap(a + b, keep, f) == FilterMap(a, keep, f) + FilterMap(b, keep, f)
    decreases |b|
  {
    if b == [] {
      assert a + b == a;
    } else {
      var init := b[..|b| - 1];
      assert (a + b)[..|a + b| - 1] == a + init;
      FilterMapConcat(a, init, keep, f);
      AppendAssoc(FilterMap(a, keep, f), FilterMap(init, keep, f), if keep(b[|b| - 1]) then [f(b[|b| - 1])] else []);
    }
  }

  /** The values of a filter-map are the images of the accepted elements, and no more than the elements. */
  lemma {:induction false} FilterMapMembers<T, U>(xs: seq<T>, keep: T -> bool, f: T -> U)
    ensures |FilterMap(xs, keep, f)| <= |xs|
    ensures (forall i :: 0 <= i < |xs| ==> keep(xs[i])) ==> |FilterMap(xs, keep, f)| == |xs|
    ensures forall v :: v in FilterMap(xs, keep, f) <==> exists i :: 0 <= i < |xs| && keep(xs[i]) && f(xs[i]) == v
    decreases |xs|
  {
    if xs != [] {
      var init := xs[..|xs| - 1];
      FilterMapMembers(init, keep, f);
      assert forall i :: 0 <= i < |init| ==> init[i] == xs[i];
    }
  }

  predicate TeamHasLabel(t: Team) {
    Truthy(t.id) || Truthy(t.name)
  }

  /** The label of a team: its id, else its name. */
  function TeamLabel(t: Team): string {
    if Truthy(t.id) then t.id.value else t.name.GetOr("")
  }

  /** TEAM_REFERENCE.getValues: the label of every team that has an id or a name, in order. */
  function TeamValues(teams: Option<seq<Team>>): (r: seq<string>)
    ensures forall v :: v in r ==> v != ""
  {
    if teams.Some? then
      var r := FilterMap(teams.value, TeamHasLabel, TeamLabel);
      FilterMapMembers(teams.value, TeamHasLabel, TeamLabel);
      r
    else []
  }

  /**
   * A team is listed by its id when it has one, else by its name; exactly
   * the labelled teams are listed, in their order.
   */
  lemma TeamValuesListed(teams: seq<Team>)
    ensures forall v :: v in TeamValues(Some(teams)) <==> exists i :: 0 <= i < |teams| && TeamHasLabel(teams[i]) && TeamLabel(teams[i]) == v
    ensures forall i :: 0 <= i < |teams| && Truthy(teams[i].id) ==> teams[i].id.value in TeamValues(Some(teams))
    ensures forall i :: 0 <= i < |teams| && !Truthy(teams[i].id) && Truthy(teams[i].name) ==> teams[i].name.value in TeamValues(Some(teams))
  {
    FilterMapMembers(teams, TeamHasLabel, TeamLabel);
    forall i | 0 <= i < |teams| && TeamHasLabel(teams[i])
      ensures TeamLabel(teams[i]) in TeamValues(Some(teams))
    {
    }
  }

  predicate EventNamed(e: Event) {
    Truthy(e.name)
  }

  function EventName(e: Event): string {
    e.name.GetOr("")
  }

  /** EVENT_REFERENCE.getValues: the names of the named events, in order. */
  function EventValues(events: Option<seq<Event>>): (r: seq<string>)
    ensures forall v :: v in r ==> v != ""
  {
    if events.Some? then
      var r := FilterMap(events.value, EventNamed, EventName);
      FilterMapMembers(events.value, EventNamed, EventName);
      r
    else []
  }

  /** Exactly the named events are listed, by name. */
  lemma EventValuesListed(events: seq<Event>)
    ensures forall v :: v in EventValues(Some(events)) <==> exists i :: 0 <= i < |events| && Truthy(events[i].name) && events[i].name.value == v
    ensures |EventValues(Some(events))| <= |events|
  {
    FilterMapMembers(events, EventNamed, EventName);
    forall v | v in EventValues(Some(events))
      ensures exists i :: 0 <= i < |events| && Truthy(events[i].name) && events[i].name.value == v
    {
      var i :| 0 <= i < |events| && EventNamed(events[i]) && EventName(events[i]) == v;
    }
    forall i | 0 <= i < |events| && Truthy(events[i].name)
      ensures events[i].name.value in EventValues(Some(events))
    {
      assert EventNamed(events[i]) && EventName(events[i]) == events[i].name.value;
    }
  }

  // ---------------------------------------------------------------------
  // Subject group preview

  function OrEmpty(xs: Option<seq<string>>): seq<string> {
    if xs.Some? then xs.value else []
  }

  /** The subjects of a group: its spacecrafts, then its squads, then its teams. */
  function Subjects(spacecrafts: Option<seq<string>>, squads: Option<seq<string>>, teams: Option<seq<string>>): seq<string> {
    OrEmpty(spacecrafts) + OrEmpty(squads) + OrEmpty(teams)
  }

  /**
   * SUBJECT_GROUP.getPreviewText: "none" for no subject, else the first
   * subject, the first two separated by ", ", and "..." after them when
   * there are more.
   */
  function SubjectPreview(spacecrafts: Option<seq<string>>, squads: Option<seq<string>>, teams: Option<seq<string>>): (r: string)
    ensures var s := Subjects(spacecrafts, squads, teams);
      && (s == [] ==> r == "none")
      && (|s| == 1 ==> r == s[0])
      && (|s| >= 2 ==> |r| >= |s[0]| + 2 + |s[1]| && r[..|s[0]|] == s[0] && r[|s[0]|..|s[0]| + 2 + |s[1]|] == ", " + s[1])
      && (|s| >= 2 ==> (|s| >= 3 <==> |r| == |s[0]| + 2 + |s[1]| + 3))
      && (|s| == 2 ==> |r| == |s[0]| + 2 + |s[1]|)
      && (|s| >= 3 ==> r[|r| - 3..] == "...")
  {
    var s := Subjects(spacecrafts, squads, teams);
    if |s| == 0 then "none"
    else if |s| == 1 then s[0]
    else if |s| == 2 then s[0] + ", " + s[1]
    else s[0] + ", " + s[1] + "..."
  }

  /** The preview depends only on the list of subjects, not on how they are split among the three kinds. */
  lemma SubjectPreviewOfList(a: Option<seq<string>>, b: Option<seq<string>>, c: Option<seq<string>>,
                             a': Option<seq<string>>, b': Option<seq<string>>, c': Option<seq<string>>)
    requires Subjects(a, b, c) == Subjects(a', b', c')
    ensures SubjectPreview(a, b, c) == SubjectPreview(a', b', c')
  {
  }

  // ---------------------------------------------------------------------
  // Spacecraft property rules

  /** A formation a squad flies in. */
  datatype Formation = Formation(formationType: string, spacing: Vec3)

  /** The members of a spacecraft entry that decide which of its properties apply. */
  datatype CraftData = CraftData(
    count: Option<int>, equipment: Option<string>, equipments: Option<seq<string>>,
    piloted: Option<bool>, pilotedIndex: Option<int>,
    position: Option<Vec3>, formation: Option<Formation>, positions: Option<seq<Vec3>>)

  /** A count of 0 is as good as none: the craft is single. */
  predicate CraftIsSingle(d: CraftData)
    ensures CraftIsSingle(d) <==> d.count.None? || d.count.value == 0 || d.count.value == 1
  {
    !TruthyInt(d.count) || d.count.value == 1
  }

  /** A multi craft is never single. */
  predicate CraftIsMulti(d: CraftData)
    ensures CraftIsMulti(d) <==> d.count.Some? && d.count.value > 1
    ensures CraftIsMulti(d) ==> !CraftIsSingle(d)
  {
    TruthyInt(d.count) && d.count.value > 1
  }

  /** A squad without a shared equipment may list equipments per member; a single craft may not. */
  predicate CraftCanHaveEquipments(d: CraftData)
    ensures CraftCanHaveEquipments(d) <==> d.count.Some? && d.count.value > 1 && (d.equipment.None? || d.equipment.value == "")
    ensures CraftCanHaveEquipments(d) ==> !CraftIsSingle(d)
  {
    CraftIsMulti(d) && !Truthy(d.equipment)
  }

  /** An absent list and an empty list of equipments both mean none. */
  predicate CraftHasNoEquipments(d: CraftData)
    ensures CraftHasNoEquipments(d) <==> d.equipments.None? || d.equipments.value == []
  {
    d.equipments.None? || |d.equipments.value| == 0
  }

  /** Not piloted: neither flag set nor a non-zero piloted index. */
  predicate CraftIsNotPiloted(d: CraftData)
    ensures CraftIsNotPiloted(d) <==> (d.piloted.None? || !d.piloted.value) && (d.pilotedIndex.None? || d.pilotedIndex.value == 0)
  {
    d.piloted != Some(true) && !TruthyInt(d.pilotedIndex)
  }

  /** Only a multi craft without a shared position and formation may list positions. */
  predicate CraftCanHavePositions(d: CraftData)
    ensures CraftCanHavePositions(d) ==> !CraftIsSingle(d)
    ensures CraftCanHavePositions(d) && CraftHasNoPositions(d) ==> CraftCanHaveFormation(d)
  {
    CraftIsMulti(d) && d.position.None? && d.formation.None?
  }

  /** A list of positions, even an empty one, counts as positions: an array is truthy. */
  predicate CraftHasNoPositions(d: CraftData)
    ensures d.positions == Some([]) ==> !CraftHasNoPositions(d)
  {
    d.positions.None?
  }

  /** Only a multi craft without a list of positions may take a formation. */
  predicate CraftCanHaveFormation(d: CraftData)
    ensures CraftCanHaveFormation(d) <==> d.count.Some? && d.count.value > 1 && d.positions.None?
    ensures CraftCanHaveFormation(d) ==> !CraftIsSingle(d)
  {
    CraftIsMulti(d) && CraftHasNoPositions(d)
  }

  /**
   * A craft is single exactly when its count is absent, 0 or 1, and multi
   * exactly when its count is above 1; never both, and one of the two unless
   * the count is negative.
   */
  lemma CraftCount(d: CraftData)
    ensures CraftIsSingle(d) <==> d.count.None? || d.count.value == 0 || d.count.value == 1
    ensures CraftIsMulti(d) <==> d.count.Some? && d.count.value > 1
    ensures !(CraftIsSingle(d) && CraftIsMulti(d))
    ensures CraftIsSingle(d) || CraftIsMulti(d) <==> d.count.None? || d.count.value >= 0
  {
  }

  /**
   * Only a multi craft may list equipments, positions or a formation; one
   * that may list positions and lists none may also take a formation.
   */
  lemma CraftMultiOptions(d: CraftData)
    ensures CraftCanHaveEquipments(d) || CraftCanHavePositions(d) || CraftCanHaveFormation(d) ==> CraftIsMulti(d)
    ensures CraftCanHavePositions(d) && CraftHasNoPositions(d) ==> CraftCanHaveFormation(d)
    ensures CraftIsSingle(d) ==> !CraftCanHaveEquipments(d) && !CraftCanHavePositions(d) && !CraftCanHaveFormation(d)
  {
  }

  // ---------------------------------------------------------------------
  // Property types

  /** The base type of a type given by an item descriptor. */
  const OBJECT := "object"

  /**
   * A type descriptor: its base type, its display name, what kind of item it
   * refers to, and, for an object type made from an item descriptor, that
   * item descriptor as its properties.
   */
  datatype Descriptor = Descriptor(
    baseType: Option<string>, name: Option<string>,
    resourceReference: Option<string>, classReference: Option<string>,
    environmentReference: Option<string>, missionReference: Option<string>,
    properties: Option<Descriptor>)

  /** What a Type is made from: a base type name or a descriptor. */
  datatype TypeArg = Named(baseType: string) | Described(descriptor: Descriptor)

  /** A descriptor that gives only a base type. */
  function Plain(baseType: string): Descriptor {
    Descriptor(Some(baseType), None, None, None, None, None, None)
  }

  /**
   * The Type constructor: a name becomes a descriptor with that base type,
   * and a descriptor without a base type (the empty name included) becomes
   * an object type whose properties are that descriptor. A descriptor with
   * a base type is kept as it is.
   */
  function NormalizeType(t: TypeArg): (d: Descriptor)
    ensures Truthy(d.baseType)
    ensures var given := if t.Named? then Plain(t.baseType) else t.descriptor;
      && (Truthy(given.baseType) ==> d == given)
      && (!Truthy(given.baseType) ==> d == Plain(OBJECT).(properties := Some(given)))
  {
    var given := if t.Named? then Plain(t.baseType) else t.descriptor;
    if Truthy(given.baseType) then given else Plain(OBJECT).(properties := Some(given))
  }

  /** Making a Type from the descriptor of a Type gives the same descriptor. */
  lemma NormalizeIdempotent(t: TypeArg)
    ensures NormalizeType(Described(NormalizeType(t))) == NormalizeType(t)
  {
  }

  /**
   * getDisplayName: the first truthy of the name and the four references,
   * else the base type; so an unnamed reference type is shown by its
   * category.
   */
  function DisplayName(d: Descriptor): (r: Option<string>)
    ensures Truthy(d.name) ==> r == d.name
    ensures !Truthy(d.name) && IsItemReference(d) ==> r == ReferenceItemCategory(d) && Truthy(r)
    ensures !Truthy(d.name) && !IsItemReference(d) ==> r == d.baseType
  {
    if Truthy(d.name) then d.name
    else if Truthy(d.resourceReference) then d.resourceReference
    else if Truthy(d.classReference) then d.classReference
    else if Truthy(d.environmentReference) then d.environmentReference
    else if Truthy(d.missionReference) then d.missionReference
    else d.baseType
  }

  /** isItemReference: the type refers to a resource, class, environment or mission. */
  predicate IsItemReference(d: Descriptor)
    ensures IsItemReference(d) <==> exists kind :: Truthy(ReferenceOf(d, kind))
  {
    assert Truthy(d.resourceReference) ==> Truthy(ReferenceOf(d, ResourceItem));
    assert Truthy(d.classReference) ==> Truthy(ReferenceOf(d, ClassItem));
    assert Truthy(d.environmentReference) ==> Truthy(ReferenceOf(d, EnvironmentItem));
    assert Truthy(d.missionReference) ==> Truthy(ReferenceOf(d, MissionItem));
    Truthy(d.resourceReference) || Truthy(d.classReference) || Truthy(d.environmentReference) || Truthy(d.missionReference)
  }

  datatype ItemType = ResourceItem | ClassItem | EnvironmentItem | MissionItem | NoItem

  /**
   * getReferenceItemType: the kind of the first truthy reference, in the
   * order resource, class, environment, mission; a kind is named exactly
   * when the type is an item reference, and the type has a reference of
   * that kind.
   */
  function ReferenceItemType(d: Descriptor): (r: ItemType)
    ensures r != NoItem <==> IsItemReference(d)
    ensures r != NoItem ==> Truthy(ReferenceOf(d, r))
    ensures r != ResourceItem ==> !Truthy(d.resourceReference)
    ensures r != ResourceItem && r != ClassItem ==> !Truthy(d.classReference)
    ensures r == MissionItem || r == NoItem ==> !Truthy(d.environmentReference)
  {
    if Truthy(d.resourceReference) then ResourceItem
    else if Truthy(d.classReference) then ClassItem
    else if Truthy(d.environmentReference) then EnvironmentItem
    else if Truthy(d.missionReference) then MissionItem
    else NoItem
  }

  /**
   * getReferenceItemCategory: the first truthy reference, so the reference
   * of the kind getReferenceItemType names; the mission reference when no
   * reference is truthy.
   */
  function ReferenceItemCategory(d: Descriptor): (r: Option<string>)
    ensures IsItemReference(d) ==> r == ReferenceOf(d, ReferenceItemType(d)) && Truthy(r)
    ensures !IsItemReference(d) ==> r == d.missionReference
  {
    StrOr(d.resourceReference, StrOr(d.classReference, StrOr(d.environmentReference, d.missionReference)))
  }

  function StrOr(s: Option<string>, fallback: Option<string>): Option<string> {
    if Truthy(s) then s else fallback
  }

  /** The reference of d of the given kind. */
  function ReferenceOf(d: Descriptor, kind: ItemType): Option<string> {
    match kind
    case ResourceItem => d.resourceReference
    case ClassItem => d.classReference
    case EnvironmentItem => d.environmentReference
    case MissionItem => d.missionReference
    case NoItem => None
  }

  /**
   * The reference lookups agree: a type is an item reference exactly when
   * it has a reference item type; the category is the reference of that
   * kind, and is truthy; and an unnamed reference type is displayed by its
   * category, an unnamed other type by its base type.
   */
  lemma ReferenceLookupsAgree(d: Descriptor)
    ensures IsItemReference(d) <==> ReferenceItemType(d) != NoItem
    ensures IsItemReference(d) ==> ReferenceItemCategory(d) == ReferenceOf(d, ReferenceItemType(d)) && Truthy(ReferenceItemCategory(d))
    ensures !Truthy(d.name) && IsItemReference(d) ==> DisplayName(d) == ReferenceItemCategory(d)
    ensures !Truthy(d.name) && !IsItemReference(d) ==> DisplayName(d) == d.baseType
  {
  }

  /** Every Type has a display name: the descriptor's name, a reference, or its base type, never empty. */
  lemma DisplayNameGiven(t: TypeArg)
    ensures Truthy(DisplayName(NormalizeType(t)))
  {
  }
}
