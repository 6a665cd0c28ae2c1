/** What the record construction of PokemonService promises, stated over the
    root document: a reference record built straight from the JSON map,
    defaults for absent keys, filtering of nested arrays, take-then-filter for
    moves, and the independence of the fields from one another. */
module NormalizationProperties {
  import opened Wrappers
  import opened JsonValues
  import opened Linq
  import opened PokemonService

  /** The record a normalizable document denotes, read directly off its map. */
  function ExpectedInfo(m: map<string, Json>): PokemonInfo
    requires Normalizable(JObj(m))
  {
    PokemonInfo(
      name := if "name" in m then AsString(m["name"]) else Unknown,
      baseExperience := if "base_experience" in m then m["base_experience"].n as int32 else 0,
      height := if "height" in m then m["height"].n as int32 else 0,
      weight := if "weight" in m then m["weight"].n as int32 else 0,
      abilities := if "abilities" in m then NestedNames(m["abilities"].elems, "ability") else [],
      moves := if "moves" in m then NestedNames(Take(m["moves"].elems, MovesTaken), "move") else [],
      heldItems := if "held_items" in m then NestedNames(m["held_items"].elems, "item") else [],
      species := if "species" in m && "name" in m["species"].fields
                 then AsString(m["species"].fields["name"]) else Unknown,
      types := if "types" in m then NestedNames(m["types"].elems, "type") else [])
  }

  /** On a normalizable document the construction yields exactly the
      reference record. */
  lemma BuildInfoMeaning(root: Json)
    requires Normalizable(root)
    ensures BuildInfo(root) == Ok(ExpectedInfo(root.fields))
  {
  }

  /** The entry point on a success status and a normalizable document
      returns the reference record. */
  lemma GetPokemonRecord(status: int, root: Json)
    requires IsSuccessStatusCode(status) && Normalizable(root)
    ensures GetPokemon(status, Some(root)) == Ok(Some(ExpectedInfo(root.fields)))
  {
    BuildInfoMeaning(root);
  }

  /** On any other document it raises the exception the construction raised. */
  lemma GetPokemonError(status: int, root: Json)
    requires IsSuccessStatusCode(status) && !Normalizable(root)
    ensures BuildInfo(root).Err? && GetPokemon(status, Some(root)) == Err(BuildInfo(root).error)
  {
  }

  /** Every absent key gives its field's default: "Unknown" for the strings,
      0 for the numbers, an empty (never null) list for the arrays. */
  lemma AbsentKeysDefault(m: map<string, Json>)
    requires BuildInfo(JObj(m)).Ok?
    ensures var info := BuildInfo(JObj(m)).value;
      && ("name" !in m ==> info.name == Str("Unknown"))
      && ("base_experience" !in m ==> info.baseExperience == 0)
      && ("height" !in m ==> info.height == 0)
      && ("weight" !in m ==> info.weight == 0)
      && ("abilities" !in m ==> info.abilities == [])
      && ("moves" !in m ==> info.moves == [])
      && ("held_items" !in m ==> info.heldItems == [])
      && ("species" !in m ==> info.species == Str("Unknown"))
      && ("types" !in m ==> info.types == [])
  {
  }

  /** A present scalar is copied unchanged; a `species` object without `name`
      still gives "Unknown". */
  lemma PresentScalarsCopied(m: map<string, Json>)
    requires BuildInfo(JObj(m)).Ok?
    ensures var info := BuildInfo(JObj(m)).value;
      && ("name" in m ==> info.name == AsString(m["name"]))
      && ("base_experience" in m ==> info.baseExperience as int == m["base_experience"].n)
      && ("height" in m ==> info.height as int == m["height"].n)
      && ("weight" in m ==> info.weight as int == m["weight"].n)
      && ("species" in m ==>
            info.species == if "name" in m["species"].fields
                            then AsString(m["species"].fields["name"]) else Str("Unknown"))
  {
  }

  /** The names extracted from an array (abilities, held_items, types, and
      the first ten moves) belong to its kept elements, in their original
      order: the kept elements form a subsequence of the array, an element is
      among them exactly when it has the wrapper object with a `name`, and the
      list is shorter than the array by exactly the number of elements dropped. */
  lemma {:induction false} KeptNamesInOrder(xs: seq<Json>, wrapper: string)
    ensures var kept := Where(xs, KeptBy(wrapper));
      && IsSubsequence(kept, xs)
      && (forall i :: 0 <= i < |xs| ==> (xs[i] in kept <==> Kept(xs[i], wrapper)))
      && |NestedNames(xs, wrapper)| + |Where(xs, Not(KeptBy(wrapper)))| == |xs|
  {
    WhereIsSubsequence(xs, KeptBy(wrapper));
    WherePartition(xs, KeptBy(wrapper));
  }

  /** Moves: only the first ten raw entries are looked at, and the filter runs
      on them; the result holds at most ten names, drawn in order from those
      entries, one for each well-formed entry among them. */
  lemma {:induction false} MovesTakeThenFilter(xs: seq<Json>)
    ensures var first := xs[..if |xs| < MovesTaken then |xs| else MovesTaken];
      var kept := Where(first, KeptBy("move"));
      && |NestedNames(Take(xs, MovesTaken), "move")| <= MovesTaken
      && NestedNames(Take(xs, MovesTaken), "move") == Select(kept, NameBy("move"))
      && IsSubsequence(kept, first)
      && |NestedNames(Take(xs, MovesTaken), "move")| + |Where(first, Not(KeptBy("move")))| == |first|
  {
    KeptNamesInOrder(Take(xs, MovesTaken), "move");
  }

  /** With twelve moves of which the third is malformed and the rest of the
      first ten well formed, exactly nine names come out. */
  lemma {:induction false} TwelveMovesThirdMalformed(xs: seq<Json>)
    requires |xs| == 12
    requires !Kept(xs[2], "move")
    requires forall i :: 0 <= i < 10 && i != 2 ==> Kept(xs[i], "move")
    ensures |NestedNames(Take(xs, MovesTaken), "move")| == 9
  {
    WhereAllButOne(Take(xs, MovesTaken), KeptBy("move"), 2);
  }

  /** Record-level form: the record never holds more than ten moves. */
  lemma MovesAtMostTen(root: Json)
    requires BuildInfo(root).Ok?
    ensures |BuildInfo(root).value.moves| <= MovesTaken
  {
    BuildInfoMeaning(root);
    if "moves" in root.fields {
      MovesTakeThenFilter(root.fields["moves"].elems);
    }
  }

  /** Record-level form of the twelve-entry case. */
  lemma TwelveMovesThirdMalformedRecord(root: Json)
    requires BuildInfo(root).Ok?
    requires "moves" in root.fields && root.fields["moves"].JArr?
    requires |root.fields["moves"].elems| == 12
    requires !Kept(root.fields["moves"].elems[2], "move")
    requires forall i :: 0 <= i < 10 && i != 2 ==> Kept(root.fields["moves"].elems[i], "move")
    ensures |BuildInfo(root).value.moves| == 9
  {
    BuildInfoMeaning(root);
    TwelveMovesThirdMalformed(root.fields["moves"].elems);
  }

  /** Entries after the tenth are never inspected: replacing them, even with
      values the filter would throw on, changes nothing. */
  lemma {:induction false} MovesAfterTenthIgnored(m: map<string, Json>, tail: seq<Json>)
    requires "moves" in m && m["moves"].JArr? && |m["moves"].elems| >= MovesTaken
    ensures var xs := m["moves"].elems;
      BuildInfo(JObj(m["moves" := JArr(xs[..MovesTaken] + tail)])) == BuildInfo(JObj(m))
  {
    var xs := m["moves"].elems;
    var ys := xs[..MovesTaken] + tail;
    assert Take(ys, MovesTaken) == xs[..MovesTaken] == Take(xs, MovesTaken);
    var m' := m["moves" := JArr(ys)];
    NamesFieldReadsConsidered(m, m', "moves", "move", Some(MovesTaken));
    NameReadsOwnKey(m, m');
    Int32ReadsOwnKey(m, m', "base_experience");
    Int32ReadsOwnKey(m, m', "height");
    Int32ReadsOwnKey(m, m', "weight");
    NamesReadOwnKey(m, m', "abilities", "ability", None);
    NamesReadOwnKey(m, m', "held_items", "item", None);
    SpeciesReadsOwnKey(m, m');
    NamesReadOwnKey(m, m', "types", "type", None);
    SameFieldsSameRecord(JObj(m), JObj(m'));
  }

  /** An array field reads only the elements it considers. */
  lemma NamesFieldReadsConsidered(m: map<string, Json>, m': map<string, Json>, key: string, wrapper: string, limit: Option<nat>)
    requires key in m && m[key].JArr? && key in m' && m'[key].JArr?
    requires Considered(m[key].elems, limit) == Considered(m'[key].elems, limit)
    ensures NamesField(JObj(m'), key, wrapper, limit) == NamesField(JObj(m), key, wrapper, limit)
  {
  }

  /** The record is determined by the nine field outcomes. */
  lemma SameFieldsSameRecord(a: Json, b: Json)
    requires NameField(a) == NameField(b)
    requires Int32Field(a, "base_experience") == Int32Field(b, "base_experience")
    requires Int32Field(a, "height") == Int32Field(b, "height")
    requires Int32Field(a, "weight") == Int32Field(b, "weight")
    requires NamesField(a, "abilities", "ability", None) == NamesField(b, "abilities", "ability", None)
    requires NamesField(a, "moves", "move", Some(MovesTaken)) == NamesField(b, "moves", "move", Some(MovesTaken))
    requires NamesField(a, "held_items", "item", None) == NamesField(b, "held_items", "item", None)
    requires SpeciesField(a) == SpeciesField(b)
    requires NamesField(a, "types", "type", None) == NamesField(b, "types", "type", None)
    ensures BuildInfo(a) == BuildInfo(b)
  {
  }

  /** Two documents hold the same thing under `key`: both lack it, or both
      have the same value. */
  predicate AgreeOn(m: map<string, Json>, m': map<string, Json>, key: string) {
    (key in m <==> key in m') && (key in m ==> m[key] == m'[key])
  }

  /** Each field reads its document only through its own key. */
  lemma NameReadsOwnKey(m: map<string, Json>, m': map<string, Json>)
    requires AgreeOn(m, m', "name")
    ensures NameField(JObj(m')) == NameField(JObj(m))
  {
  }

  lemma Int32ReadsOwnKey(m: map<string, Json>, m': map<string, Json>, key: string)
    requires AgreeOn(m, m', key)
    ensures Int32Field(JObj(m'), key) == Int32Field(JObj(m), key)
  {
  }

  lemma NamesReadOwnKey(m: map<string, Json>, m': map<string, Json>, key: string, wrapper: string, limit: Option<nat>)
    requires AgreeOn(m, m', key)
    ensures NamesField(JObj(m'), key, wrapper, limit) == NamesField(JObj(m), key, wrapper, limit)
  {
  }

  lemma SpeciesReadsOwnKey(m: map<string, Json>, m': map<string, Json>)
    requires AgreeOn(m, m', "species")
    ensures SpeciesField(JObj(m')) == SpeciesField(JObj(m))
  {
  }

  /** Every field depends on its own key alone: when two documents agree on
      every top-level key but `k` (k added, removed or changed) and both
      normalize, every field read from another key is the same. */
  lemma OtherFieldsUnchanged(m: map<string, Json>, m': map<string, Json>, k: string)
    requires forall j :: j != k ==> AgreeOn(m, m', j)
    requires BuildInfo(JObj(m)).Ok? && BuildInfo(JObj(m')).Ok?
    ensures var a, b := BuildInfo(JObj(m)).value, BuildInfo(JObj(m')).value;
      && (k != "name" ==> a.name == b.name)
      && (k != "base_experience" ==> a.baseExperience == b.baseExperience)
      && (k != "height" ==> a.height == b.height)
      && (k != "weight" ==> a.weight == b.weight)
      && (k != "abilities" ==> a.abilities == b.abilities)
      && (k != "moves" ==> a.moves == b.moves)
      && (k != "held_items" ==> a.heldItems == b.heldItems)
      && (k != "species" ==> a.species == b.species)
      && (k != "types" ==> a.types == b.types)
  {
    if k != "name" { NameReadsOwnKey(m, m'); }
    if k != "base_experience" { Int32ReadsOwnKey(m, m', "base_experience"); }
    if k != "height" { Int32ReadsOwnKey(m, m', "height"); }
    if k != "weight" { Int32ReadsOwnKey(m, m', "weight"); }
    if k != "abilities" { NamesReadOwnKey(m, m', "abilities", "ability", None); }
    if k != "moves" { NamesReadOwnKey(m, m', "moves", "move", Some(MovesTaken)); }
    if k != "held_items" { NamesReadOwnKey(m, m', "held_items", "item", None); }
    if k != "species" { SpeciesReadsOwnKey(m, m'); }
    if k != "types" { NamesReadOwnKey(m, m', "types", "type", None); }
  }

  /** The one `types` element of the scenario document. */
  const ElectricType: Json := JObj(map["type" := JObj(map["name" := JStr("electric")])])

  /** `{"name":"pikachu","height":4,"weight":60,"types":[{"type":{"name":"electric"}}]}` */
  const PikachuFields: map<string, Json> :=
    map["name" := JStr("pikachu"), "height" := JInt(4), "weight" := JInt(60), "types" := JArr([ElectricType])]

  /** The record that document should give: every field it lacks defaulted. */
  const PikachuInfo: PokemonInfo :=
    PokemonInfo(Str("pikachu"), 0, 4, 60, [], [], [], Str("Unknown"), [Str("electric")])

  /** What the scenario document holds, key by key. */
  predicate IsPikachuDocument(m: map<string, Json>) {
    && m.Keys == {"name", "height", "weight", "types"}
    && m["name"] == JStr("pikachu")
    && m["height"] == JInt(4)
    && m["weight"] == JInt(60)
    && m["types"] == JArr([ElectricType])
  }

  lemma PikachuFieldsDescribed()
    ensures IsPikachuDocument(PikachuFields)
  {
  }

  lemma PikachuNormalizable(m: map<string, Json>)
    requires IsPikachuDocument(m)
    ensures Normalizable(JObj(m))
  {
    assert Considered(m["types"].elems, None) == [ElectricType];
    assert ElementShaped(ElectricType, "type");
  }

  /** The reference record of the scenario document, field by field. */
  lemma PikachuExpected(m: map<string, Json>)
    requires IsPikachuDocument(m)
    requires Normalizable(JObj(m))
    ensures ExpectedInfo(m) == PikachuInfo
  {
    ElectricTypeNames();
    assert "base_experience" !in m && "abilities" !in m && "moves" !in m;
    assert "held_items" !in m && "species" !in m;
  }

  /** The scenario's one `types` element yields its inner name. */
  lemma ElectricTypeNames()
    ensures NestedNames([ElectricType], "type") == [Str("electric")]
  {
    assert Kept(ElectricType, "type");
    assert Where([ElectricType], KeptBy("type")) == [ElectricType];
  }

  /** The record construction on the scenario document. */
  lemma PikachuRecord()
    ensures BuildInfo(JObj(PikachuFields)) == Ok(PikachuInfo)
  {
    var m := PikachuFields;
    PikachuFieldsDescribed();
    PikachuNormalizable(m);
    BuildInfoMeaning(JObj(m));
    PikachuExpected(m);
  }

  /** The scenario document served with status 200 gives that record. */
  lemma PikachuScenario()
    ensures GetPokemon(200, Some(JObj(PikachuFields))) == Ok(Some(PikachuInfo))
  {
    PikachuRecord();
  }

  /** A present `base_experience` of null is not defaulted: GetInt32 throws. */
  lemma NullBaseExperienceThrows(m: map<string, Json>)
    requires "base_experience" in m && m["base_experience"] == JNull
    ensures GetPokemon(200, Some(JObj(m))) == Err(InvalidOperationException)
  {
  }
}
