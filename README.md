# PokemonAPI record normaliser, modelled in Dafny

The PokemonAPI service answers `GET api/pokemon/{name}` by fetching
`https://pokeapi.co/api/v2/pokemon/{name}` and reshaping the upstream JSON
document into a flat `PokemonInfo` record. Its one piece of decision logic is
`PokemonService.GetPokemonAsync`. A non-success upstream status yields `null`.
Otherwise the parsed root is turned into the record field by field:

- `name`, `base_experience`, `height` and `weight` fall back to `"Unknown"` or `0` when the key is absent.
- `abilities`, `moves`, `held_items` and `types` are flattened to the inner `name` of each wrapper object (`ability`, `move`, `item`, `type`). Elements that lack that nested shape are skipped.
- Only the first ten raw `moves` entries are considered, and filtering happens after that cut.
- `species` becomes `species.name`, or `"Unknown"` when either level is missing.

This project models that operation as pure functions over a parsed JSON tree:

- `wrappers.dfy`: `Option` and `Result` (a value, or the exception that aborted the computation).
- `json.dfy` (module `JsonValues`): the JSON tree; C#'s nullable string and `int`; the `JsonElement` accessors the service calls (`TryGetProperty`, `GetProperty`, `GetString`, `GetInt32`, `EnumerateArray`), with the exception each raises on a value of the wrong kind.
- `linq.dfy` (module `Linq`): `Take`, `Where` and `Select` on sequences, with lemmas on order preservation and on how many elements `Where` drops.
- `pokemon_service.dfy` (module `PokemonService`): the record, one function per field (in the order the object initializer evaluates them), the whole construction `BuildInfo`, and `GetPokemon`, which adds the status check.
- `properties.dfy` (module `NormalizationProperties`): a reference record read straight off the JSON map, plus the lemmas about defaults, filtering, take-then-filter, field independence, and two scenarios.

The model follows the C# as written:

- A non-success status gives no record (`null`); the body is not read.
- The code only checks whether a key is *present*. A present value of the wrong kind makes `GetString`, `GetInt32`, `EnumerateArray` or `TryGetProperty` throw. The model returns that exception as `Err`.
  - A `"base_experience": null` (a value PokeAPI can serve) therefore aborts the record instead of giving 0.
  - A `moves` element among the first ten that is a string rather than an object also aborts it, instead of being skipped.
  - `BuildInfo` succeeds exactly on `Normalizable` documents.
- `GetString` returns `null` for a JSON `null`. So `Name`, `Species` and list elements can be null; they are `NullableString` values.
- `moves` entries after the tenth are never looked at, so they cannot cause an exception.

Normalisation is deterministic by construction: `GetPokemon` is a Dafny function of the status and the parsed body.

## Model

| member | source | states |
|---|---|---|
| `Linq.Take` | PokemonAPI/Services/PokemonService.cs:45 | `Take(n)` is the prefix of length min(n, length). |
| `Linq.Where` | PokemonAPI/Services/PokemonService.cs:46 | Every element `Where` yields comes from the input and satisfies the predicate; every input element satisfying it is yielded; the output is no longer than the input. |
| `Linq.Select` | PokemonAPI/Services/PokemonService.cs:47 | `Select` keeps the length and maps element i to f(element i). |
| `Linq.WhereIsSubsequence` | PokemonAPI/Services/PokemonService.cs:46 | `Where` preserves the relative order of what it keeps (its output is a subsequence of its input). |
| `Linq.WherePartition` | PokemonAPI/Services/PokemonService.cs:46 | Output length plus the number of rejected elements equals the input length. |
| `Linq.WhereAllButOne` | PokemonAPI/Services/PokemonService.cs:46 | When exactly one element fails the predicate, the output is one shorter than the input. |
| `Linq.WhereAll` | PokemonAPI/Services/PokemonService.cs:46 | When every element passes, `Where` returns its input unchanged. |
| `PokemonService.NameField` | PokemonAPI/Services/PokemonService.cs:33 | Succeeds exactly when the root is an object whose `name`, if present, is a string or null. The value is then that string (or null), and "Unknown" when the key is absent. |
| `PokemonService.Int32Field` | PokemonAPI/Services/PokemonService.cs:34-36 | Succeeds exactly when the root is an object whose key, if present, holds a number within the Int32 range. The value is then the number, and 0 when the key is absent. FormatException occurs exactly for a present number out of range. |
| `PokemonService.HasNestedName` | PokemonAPI/Services/PokemonService.cs:39 | The filter predicate succeeds exactly when the element is an object whose wrapper (if any) is an object. It then answers whether the element is kept; its only exception is InvalidOperationException. |
| `PokemonService.NestedName` | PokemonAPI/Services/PokemonService.cs:40 | On a kept element, the projection succeeds exactly when the inner name is a string or null, and it yields that name. |
| `PokemonService.ExtractNestedNames` | PokemonAPI/Services/PokemonService.cs:38-41 | Succeeds exactly when every element is shaped; it then yields `Select(Where(kept), inner name)`. It only ever throws InvalidOperationException, never KeyNotFoundException. |
| `PokemonService.NestedNamesCons` | PokemonAPI/Services/PokemonService.cs:39-41 | The names of a non-empty array are its head's name (if kept) followed by the names of its tail. |
| `PokemonService.NamesField` | PokemonAPI/Services/PokemonService.cs:37-42 | The same pipeline for all four arrays (also lines 43-49, 50-55, 59-64). An absent key gives an empty list. A present key gives the kept names of the considered elements (all of them, or the first `limit`). It succeeds exactly when the value is an array of shaped elements in that considered range. |
| `PokemonService.SpeciesField` | PokemonAPI/Services/PokemonService.cs:56-58 | Gives `species.name` when both levels are present. Otherwise it gives "Unknown", including for a `species` object without `name`. It succeeds exactly when `species`, if present, is an object whose `name` is a string or null. |
| `PokemonService.BuildInfo` | PokemonAPI/Services/PokemonService.cs:31-65 | The record is built exactly when the document is `Normalizable`. A non-object root throws InvalidOperationException. The only exceptions are InvalidOperationException and FormatException. |
| `PokemonService.GetPokemon` | PokemonAPI/Services/PokemonService.cs:23-29 | No record (null) exactly when the status is outside 200-299, whatever the body. On success, a record comes back exactly when the body parsed and is normalizable, and it is the record `BuildInfo` builds. Otherwise the exception is the one `BuildInfo` raised, or JsonException for a body that is not JSON. |
| `NormalizationProperties.BuildInfoMeaning` | PokemonAPI/Services/PokemonService.cs:31-65 | On a normalizable document, the record equals the reference record read directly off the JSON map. That record has the defaults, `species.name`, the kept names of each array, and the kept names of only the first ten `moves` entries. |
| `NormalizationProperties.GetPokemonRecord` | PokemonAPI/Services/PokemonService.cs:23-65 | On a success status, a normalizable document gives exactly the reference record `ExpectedInfo`. |
| `NormalizationProperties.GetPokemonError` | PokemonAPI/Services/PokemonService.cs:23-65 | On a success status, any other document gives the exception the record construction raised. |
| `NormalizationProperties.AbsentKeysDefault` | PokemonAPI/Services/PokemonService.cs:33-64 | Each absent key gives its default: "Unknown" for name and species, 0 for the numbers, an empty (non-null) list for the arrays. |
| `NormalizationProperties.PresentScalarsCopied` | PokemonAPI/Services/PokemonService.cs:33-58 | Present name and numbers are copied unchanged. A present `species` gives its `name`, or "Unknown" when that is missing. |
| `NormalizationProperties.KeptNamesInOrder` | PokemonAPI/Services/PokemonService.cs:38-41 | Applies to abilities, held_items, types and the first ten moves. An element is kept iff it has the wrapper object with a `name`. The kept elements are a subsequence of the array (order preserved). The list is shorter than the array by exactly the number of malformed elements. |
| `NormalizationProperties.MovesTakeThenFilter` | PokemonAPI/Services/PokemonService.cs:43-48 | The moves list (`NestedNames(Take(moves, 10))`, by `BuildInfoMeaning`) has at most 10 names. They are the projection of the kept entries among the first ten raw entries, in order. Its length is that prefix's length minus its malformed entries. |
| `NormalizationProperties.MovesAtMostTen` | PokemonAPI/Services/PokemonService.cs:43-48 | On the record: every record built has at most ten moves. |
| `NormalizationProperties.TwelveMovesThirdMalformed` | PokemonAPI/Services/PokemonService.cs:43-48 | Twelve raw entries with the third malformed and the rest of the first ten well formed give exactly nine move names. |
| `NormalizationProperties.TwelveMovesThirdMalformedRecord` | PokemonAPI/Services/PokemonService.cs:43-48 | On the record: a normalizable document whose `moves` has that twelve-entry shape gives a `Moves` list of exactly nine names. |
| `NormalizationProperties.MovesAfterTenthIgnored` | PokemonAPI/Services/PokemonService.cs:44-46 | Replacing the entries after the tenth (even with ones that would throw) leaves the outcome unchanged. |
| `NormalizationProperties.NamesFieldReadsConsidered` | PokemonAPI/Services/PokemonService.cs:43-45 | An array field depends only on the elements in its considered prefix. |
| `NormalizationProperties.SameFieldsSameRecord` | PokemonAPI/Services/PokemonService.cs:31-65 | The outcome of the construction is determined by the nine field outcomes. |
| `NormalizationProperties.NameReadsOwnKey` | PokemonAPI/Services/PokemonService.cs:33 | The Name outcome (value or exception) depends only on the `name` key. |
| `NormalizationProperties.Int32ReadsOwnKey` | PokemonAPI/Services/PokemonService.cs:34-36 | Each number field's outcome depends only on its own key. |
| `NormalizationProperties.NamesReadOwnKey` | PokemonAPI/Services/PokemonService.cs:37-64 | Each list field's outcome depends only on its own key. |
| `NormalizationProperties.SpeciesReadsOwnKey` | PokemonAPI/Services/PokemonService.cs:56-58 | The Species outcome depends only on the `species` key. |
| `NormalizationProperties.OtherFieldsUnchanged` | PokemonAPI/Services/PokemonService.cs:31-65 | Adding, removing or changing one top-level key leaves every field read from another key unchanged. |
| `NormalizationProperties.PikachuRecord` | PokemonAPI/Services/PokemonService.cs:31-65 | The construction on `{"name":"pikachu","height":4,"weight":60,"types":[{"type":{"name":"electric"}}]}` gives pikachu/0/4/60/[]/[]/[]/Unknown/[electric]. |
| `NormalizationProperties.PikachuScenario` | PokemonAPI/Services/PokemonService.cs:23-31 | That document served with status 200 gives that record (not null, no exception). |
| `NormalizationProperties.NullBaseExperienceThrows` | PokemonAPI/Services/PokemonService.cs:34 | A present null `base_experience` is not defaulted: the construction throws InvalidOperationException. |

## Left out

- The HTTP GET, the URL interpolation of the name and `ReadAsStringAsync` (PokemonService.cs:22, 28) are network I/O and async plumbing. The status code and the parsed body are parameters of `GetPokemon`.
- The text parser `JsonDocument.Parse` (PokemonService.cs:29) is not modelled. The body arrives already parsed, and `None` stands for text that is not JSON.
- JSON numbers are integers only. A fractional or exponent-form number, on which `GetInt32` throws FormatException, is not represented.
- JSON objects are maps, so duplicate property names and property order are not represented.
- `PokemonController.GetPokemon` only maps `null` to a 404 `NotFound` (PokemonController.cs:23-28), and `Program.cs` is service registration and server bootstrap. Neither holds normalisation logic.
- The listing action (PokemonController.cs:31-43) is commented out, so it is not live code and is not modelled.
- A Dafny `string` is a sequence of Unicode scalar values, while a .NET string is UTF-16. A JSON string holding a lone surrogate escape such as `"\uD800"` therefore cannot be represented, and the InvalidOperationException that `GetString` raises on it is not modelled.
- Determinism has no lemma of its own, because every member here is a mathematical function of its inputs.
