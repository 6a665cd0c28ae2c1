/** PokemonService.GetPokemonAsync: the status check and the construction of a
    PokemonInfo record from the root of an upstream PokeAPI document. */
module PokemonService {
  import opened Wrappers
  import opened JsonValues
  import opened Linq

  /** The default of the two string fields. */
  const Unknown: NullableString := Str("Unknown")

  /** How many raw `moves` entries are considered before filtering. */
  const MovesTaken: nat := 10

  /** The record the service returns (PokemonInfo.cs); the lists are C# List<string>,
      whose elements are string references. */
  datatype PokemonInfo = PokemonInfo(
    name: NullableString,
    baseExperience: int32,
    height: int32,
    weight: int32,
    abilities: seq<NullableString>,
    moves: seq<NullableString>,
    heldItems: seq<NullableString>,
    species: NullableString,
    types: seq<NullableString>)

  /** HttpResponseMessage.IsSuccessStatusCode: a status in the range 200-299. */
  predicate IsSuccessStatusCode(status: int) {
    200 <= status <= 299
  }

  // ---------------------------------------------------------------------------
  // Document shapes, stated directly on the JSON tree

  /** A value GetString accepts. */
  predicate IsStringOrNull(v: Json) {
    v.JStr? || v.JNull?
  }

  /** The string reference GetString returns for a value it accepts. */
  function AsString(v: Json): NullableString {
    if v.JStr? then Str(v.s) else Null
  }

  /** A value GetInt32 accepts. */
  predicate FitsInt32(v: Json) {
    v.JInt? && Int32Min <= v.n <= Int32Max
  }

  /** An array element the filter keeps: an object whose `wrapper` property is
      an object with a `name` property. */
  predicate Kept(e: Json, wrapper: string) {
    && e.JObj?
    && wrapper in e.fields
    && e.fields[wrapper].JObj?
    && "name" in e.fields[wrapper].fields
  }

  /** An array element the filter and the projection get through without
      throwing: an object; if it has `wrapper`, that is an object; if that has
      `name`, it is a string or null. */
  predicate ElementShaped(e: Json, wrapper: string) {
    && e.JObj?
    && (wrapper in e.fields ==>
          && e.fields[wrapper].JObj?
          && ("name" in e.fields[wrapper].fields ==> IsStringOrNull(e.fields[wrapper].fields["name"])))
  }

  /** The inner name of a kept element. */
  function InnerName(e: Json, wrapper: string): NullableString {
    if Kept(e, wrapper) then AsString(e.fields[wrapper].fields["name"]) else Null
  }

  function KeptBy(wrapper: string): Json -> bool {
    e => Kept(e, wrapper)
  }

  function NameBy(wrapper: string): Json -> NullableString {
    e => InnerName(e, wrapper)
  }

  /** The raw elements the pipeline looks at: all of them, or the first `limit`. */
  function Considered(xs: seq<Json>, limit: Option<nat>): seq<Json> {
    if limit.Some? then Take(xs, limit.value) else xs
  }

  /** The names the pipeline yields from the considered elements. */
  function NestedNames(xs: seq<Json>, wrapper: string): seq<NullableString> {
    Select(Where(xs, KeptBy(wrapper)), NameBy(wrapper))
  }

  predicate NameShaped(m: map<string, Json>) {
    "name" in m ==> IsStringOrNull(m["name"])
  }

  predicate Int32Shaped(m: map<string, Json>, key: string) {
    key in m ==> FitsInt32(m[key])
  }

  predicate NamesShaped(m: map<string, Json>, key: string, wrapper: string, limit: Option<nat>) {
    key in m ==>
      && m[key].JArr?
      && var xs := Considered(m[key].elems, limit);
         forall i :: 0 <= i < |xs| ==> ElementShaped(xs[i], wrapper)
  }

  predicate SpeciesShaped(m: map<string, Json>) {
    "species" in m ==>
      && m["species"].JObj?
      && ("name" in m["species"].fields ==> IsStringOrNull(m["species"].fields["name"]))
  }

  /** A root document the record construction gets through without throwing. */
  predicate Normalizable(root: Json) {
    && root.JObj?
    && var m := root.fields;
       && NameShaped(m)
       && Int32Shaped(m, "base_experience")
       && Int32Shaped(m, "height")
       && Int32Shaped(m, "weight")
       && NamesShaped(m, "abilities", "ability", None)
       && NamesShaped(m, "moves", "move", Some(MovesTaken))
       && NamesShaped(m, "held_items", "item", None)
       && SpeciesShaped(m)
       && NamesShaped(m, "types", "type", None)
  }

  // ---------------------------------------------------------------------------
  // The record construction, field by field, in the order C# evaluates it

  /** Name: the `name` string when present, "Unknown" when absent. */
  function NameField(root: Json): (r: Result<NullableString, Exception>)
    ensures r.Ok? <==> root.JObj? && NameShaped(root.fields)
    ensures r.Ok? ==> r.value == if "name" in root.fields then AsString(root.fields["name"]) else Unknown
  {
    var prop :- TryGetProperty(root, "name");
    if prop.Some? then GetString(prop.value) else Ok(Unknown)
  }

  /** BaseExperience, Height, Weight: the number when present, 0 when absent;
      FormatException exactly when a present number does not fit in 32 bits. */
  function Int32Field(root: Json, key: string): (r: Result<int32, Exception>)
    ensures r.Ok? <==> root.JObj? && Int32Shaped(root.fields, key)
    ensures r.Ok? ==> r.value as int == if key in root.fields then root.fields[key].n else 0
    ensures r == Err(FormatException) <==>
              root.JObj? && key in root.fields && root.fields[key].JInt? && !FitsInt32(root.fields[key])
  {
    var prop :- TryGetProperty(root, key);
    if prop.Some? then GetInt32(prop.value) else Ok(0)
  }

  /** The Where predicate: the element has `wrapper`, and that has `name`. */
  function HasNestedName(e: Json, wrapper: string): (r: Result<bool, Exception>)
    ensures r.Ok? <==> e.JObj? && (wrapper in e.fields ==> e.fields[wrapper].JObj?)
    ensures r.Ok? ==> r.value == Kept(e, wrapper)
    ensures r.Err? ==> r.error == InvalidOperationException
  {
    var outer :- TryGetProperty(e, wrapper);
    if outer.None? then Ok(false)
    else
      var inner :- TryGetProperty(outer.value, "name");
      Ok(inner.Some?)
  }

  /** `GetProperty(key).GetString()`. */
  function PropertyString(e: Json, key: string): Result<NullableString, Exception> {
    var v :- GetProperty(e, key);
    GetString(v)
  }

  /** The Select projection: the element's `wrapper.name` as a string. */
  function NestedName(e: Json, wrapper: string): (r: Result<NullableString, Exception>)
    ensures Kept(e, wrapper) ==> (r.Ok? <==> ElementShaped(e, wrapper))
    ensures Kept(e, wrapper) && r.Ok? ==> r.value == InnerName(e, wrapper)
    ensures Kept(e, wrapper) && r.Err? ==> r.error == InvalidOperationException
  {
    var outer :- GetProperty(e, wrapper);
    PropertyString(outer, "name")
  }

  /** `.Where(...).Select(...).ToList()` over enumerated elements: succeeds
      exactly when every element is shaped, and then yields the inner names of
      the kept elements in order; the GetProperty calls of the projection never
      throw, since the filter has checked both properties. */
  function ExtractNestedNames(xs: seq<Json>, wrapper: string): (r: Result<seq<NullableString>, Exception>)
    ensures r.Ok? <==> forall i :: 0 <= i < |xs| ==> ElementShaped(xs[i], wrapper)
    ensures r.Ok? ==> r.value == NestedNames(xs, wrapper)
    ensures r.Err? ==> r.error == InvalidOperationException
  {
    if xs == [] then Ok([])
    else
      NestedNamesCons(xs, wrapper);
      var keep :- HasNestedName(xs[0], wrapper);
      if keep then
        var name :- NestedName(xs[0], wrapper);
        var rest :- ExtractNestedNames(xs[1..], wrapper);
        Ok([name] + rest)
      else
        ExtractNestedNames(xs[1..], wrapper)
  }

  /** The names of a non-empty sequence are those of its head, then those of its tail. */
  lemma NestedNamesCons(xs: seq<Json>, wrapper: string)
    requires xs != []
    ensures NestedNames(xs, wrapper) ==
            (if Kept(xs[0], wrapper) then [InnerName(xs[0], wrapper)] else []) + NestedNames(xs[1..], wrapper)
    ensures (forall i :: 0 <= i < |xs| ==> ElementShaped(xs[i], wrapper)) <==>
            ElementShaped(xs[0], wrapper) && forall i :: 0 <= i < |xs[1..]| ==> ElementShaped(xs[1..][i], wrapper)
  {
  }

  /** Abilities, Moves, HeldItems, Types: empty when the key is absent, otherwise
      the inner names of the kept elements among the considered ones. */
  function NamesField(root: Json, key: string, wrapper: string, limit: Option<nat>): (r: Result<seq<NullableString>, Exception>)
    ensures r.Ok? <==> root.JObj? && NamesShaped(root.fields, key, wrapper, limit)
    ensures r.Ok? ==> r.value == if key in root.fields then NestedNames(Considered(root.fields[key].elems, limit), wrapper) else []
    ensures r.Err? ==> r.error == InvalidOperationException
  {
    var prop :- TryGetProperty(root, key);
    if prop.None? then Ok([])
    else
      var elems :- EnumerateArray(prop.value);
      ExtractNestedNames(Considered(elems, limit), wrapper)
  }

  /** Species: `species.name` when both are present, "Unknown" otherwise. */
  function SpeciesField(root: Json): (r: Result<NullableString, Exception>)
    ensures r.Ok? <==> root.JObj? && SpeciesShaped(root.fields)
    ensures r.Ok? ==>
              r.value == if "species" in root.fields && "name" in root.fields["species"].fields
                         then AsString(root.fields["species"].fields["name"])
                         else Unknown
  {
    var prop :- TryGetProperty(root, "species");
    var hasName :- if prop.Some? then TryGetProperty(prop.value, "name") else Ok(None);
    if prop.Some? && hasName.Some? then PropertyString(prop.value, "name") else Ok(Unknown)
  }

  /** The object initializer: each field in turn; the first exception aborts the
      construction. It succeeds exactly on normalizable documents, and the only
      exceptions it can raise are wrong-kind and out-of-range ones. */
  function BuildInfo(root: Json): (r: Result<PokemonInfo, Exception>)
    ensures r.Ok? <==> Normalizable(root)
    ensures !root.JObj? ==> r == Err(InvalidOperationException)
    ensures r.Err? ==> r.error == InvalidOperationException || r.error == FormatException
  {
    var name :- NameField(root);
    var baseExperience :- Int32Field(root, "base_experience");
    var height :- Int32Field(root, "height");
    var weight :- Int32Field(root, "weight");
    var abilities :- NamesField(root, "abilities", "ability", None);
    var moves :- NamesField(root, "moves", "move", Some(MovesTaken));
    var heldItems :- NamesField(root, "held_items", "item", None);
    var species :- SpeciesField(root);
    var types :- NamesField(root, "types", "type", None);
    Ok(PokemonInfo(name, baseExperience, height, weight, abilities, moves, heldItems, species, types))
  }

  /** GetPokemonAsync after the HTTP round trip: `status` is the upstream status
      and `body` the parsed body text (None when it is not JSON). A non-success
      status yields no record (null) whatever the body; a success status yields
      a record or the exception that aborted its construction. */
  function GetPokemon(status: int, body: Option<Json>): (r: Result<Option<PokemonInfo>, Exception>)
    ensures r == Ok(None) <==> !IsSuccessStatusCode(status)
    ensures IsSuccessStatusCode(status) ==> (r.Ok? <==> body.Some? && Normalizable(body.value))
    ensures IsSuccessStatusCode(status) && body.None? ==> r == Err(JsonException)
    ensures r.Ok? && r.value.Some? ==> body.Some? && BuildInfo(body.value) == Ok(r.value.value)
    ensures IsSuccessStatusCode(status) && body.Some? && r.Err? ==> BuildInfo(body.value) == Err(r.error)
  {
    if !IsSuccessStatusCode(status) then Ok(None)
    else if body.None? then Err(JsonException)
    else
      var info :- BuildInfo(body.value);
      Ok(Some(info))
  }
}
