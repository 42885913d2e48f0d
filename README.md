# Index kind tag of the DocumentDB Java client

This project models the index-kind tag of `Index` in the Azure DocumentDB
Java client (`src/com/microsoft/azure/documentdb/Index.java`) and proves
what it promises.

An `Index` is a property bag (a JSON object, modelled as
`map<string, string>`). Each of its three constructors fills the bag and
then writes the index kind into it under the `kind` property, as the enum
constant's name (`setKind`). A kind already present in a JSON input is
replaced. `getKind` reads the stored text back. It passes the text through
`WordUtils.capitalize`, which title-cases the first character of every
whitespace-separated word, and then through `IndexKind.valueOf`, which
matches names exactly. When nothing matches, it logs one warning and
returns null (`None` here) rather than throwing. The static factories
`Range`, `Hash` and `Spatial` build the three index variants, modelled as
the sum type `TypedIndex`.

Modules:

- `Wrappers`: the `Option` type.
- `WordUtils`: `Capitalize`, defined as the left-to-right scan the library
  performs. Its contract gives every position of the result in closed form.
- `IndexModel`: `IndexKind`, `DataType`, `TypedIndex`, the decoder
  `ParseKind`, and the class `Index`. The class holds the bag in `props`
  and has the constructors, `SetKind`, `GetKind` and the static factories.

The stored texts that decode to a kind are exactly these: its name; its name
with the first letter in lower case; and, for `Spatial`, `"ſpatial"`. The
last one works because U+017F LATIN SMALL LETTER LONG S title-cases to `S`.
Only the first letter's case is tolerated: `"RANGE"`, `"rAnge"`, `" Range"`
and `"range index"` are all refused.

## Model

| member | source | states |
|---|---|---|
| `WordUtils.IsWhitespace` | src/com/microsoft/azure/documentdb/Index.java:47 | `Character.isWhitespace`, as `capitalize` uses it to find word starts: space, tab, newline and carriage return are whitespace; the non-breaking spaces, ASCII letters and digits, and the long s are not |
| `WordUtils.ToTitle` | src/com/microsoft/azure/documentdb/Index.java:47 | title case maps a non-whitespace character to a non-whitespace one; an ASCII capital arises only from itself, its small letter, or (for `S`) the long s |
| `WordUtils.CapitalizeFrom` | src/com/microsoft/azure/documentdb/Index.java:47 | the capitalising scan keeps the length; position i is title-cased exactly when it is not whitespace and starts a word, and is kept otherwise |
| `WordUtils.Capitalize` | src/com/microsoft/azure/documentdb/Index.java:47 | `capitalize` keeps the length; a character is title-cased exactly when it is not whitespace and comes first or follows whitespace, and every other character is kept |
| `WordUtils.CapitalizeWord` | src/com/microsoft/azure/documentdb/Index.java:47 | on a single word, `capitalize` changes only the first character |
| `IndexModel.Name` | src/com/microsoft/azure/documentdb/Index.java:62 | `IndexKind.name()` is a non-empty single word (no whitespace) that starts with an ASCII capital, so `capitalize` leaves it unchanged |
| `IndexModel.ValueOf` | src/com/microsoft/azure/documentdb/Index.java:47 | `IndexKind.valueOf` yields kind k exactly when the text equals k's name; otherwise it fails |
| `IndexModel.CapitalizedToName` | src/com/microsoft/azure/documentdb/Index.java:47 | a text that capitalises to a kind's name has the name's length, no whitespace, and differs from the name at most in its first letter, which title-cases to the name's first letter |
| `IndexModel.SpellingCapitalizes` | src/com/microsoft/azure/documentdb/Index.java:47 | every accepted spelling of a kind capitalises to its name |
| `IndexModel.CapitalizedEqualsName` | src/com/microsoft/azure/documentdb/Index.java:47 | a text capitalises to kind k's name if and only if it is one of k's spellings |
| `IndexModel.ParseKind` | src/com/microsoft/azure/documentdb/Index.java:44-54 | capitalise-then-`valueOf` yields kind k if and only if the stored text is one of k's spellings, and fails on every other text |
| `IndexModel.AcceptedExamples` | src/com/microsoft/azure/documentdb/Index.java:47 | "Range", "range", "hash" and "spatial" decode to their kinds |
| `IndexModel.RefusedCaseExamples` | src/com/microsoft/azure/documentdb/Index.java:45-53 | "RANGE" and "rAnge" decode to no kind: only the first letter's case is tolerated |
| `IndexModel.RefusedShapeExamples` | src/com/microsoft/azure/documentdb/Index.java:45-53 | "range index", " Range", "btree" and "" decode to no kind |
| `IndexModel.KindSetIsUpdate` | src/com/microsoft/azure/documentdb/Index.java:61-63 | "kind set to k, every other property unchanged" pins the new bag down to the single map update of `kind` |
| `IndexModel.Index.SetKind` | src/com/microsoft/azure/documentdb/Index.java:61-63 | `setKind` stores k's name under `kind`, adds no other key and keeps every other property's value |
| `IndexModel.Index.New` | src/com/microsoft/azure/documentdb/Index.java:12-15 | after `Index(kind)` the bag holds only `kind`, the class invariant holds and `getKind` returns that kind with no warning |
| `IndexModel.Index.FromJsonString` | src/com/microsoft/azure/documentdb/Index.java:23-26 | after `Index(json, kind)` the bag is the parsed bag with `kind` replaced by the supplied kind, and `getKind` returns that kind with no warning |
| `IndexModel.Index.FromJsonObject` | src/com/microsoft/azure/documentdb/Index.java:34-37 | after `Index(jsonObject, kind)` the bag is the object's properties with `kind` replaced by the supplied kind, and `getKind` returns that kind with no warning |
| `IndexModel.Index.GetKind` | src/com/microsoft/azure/documentdb/Index.java:44-54 | reads without changing anything; yields kind k if and only if the stored text is a spelling of k, and then logs nothing; otherwise yields none and logs exactly one warning naming the stored text |
| `IndexModel.Index.KindOf` | src/com/microsoft/azure/documentdb/Index.java:81-152 | each index variant the factories build has its own kind: Range for a range index, Hash for a hash index, Spatial for a spatial index, and no other |
| `IndexModel.Index.Create` | src/com/microsoft/azure/documentdb/Index.java:81-152 | constructing a range, hash or spatial index runs `Index(kind)` with its class's kind: a fresh object whose bag holds only `kind`, and whose `getKind` returns that kind with no warning |
| `IndexModel.Index.Range` | src/com/microsoft/azure/documentdb/Index.java:81-83 | `Range(dt)` is a range index on dt with no precision, and the kind its class passes to the `Index` constructor decodes to Range |
| `IndexModel.Index.RangeWithPrecision` | src/com/microsoft/azure/documentdb/Index.java:102-104 | `Range(dt, p)` is a range index on dt carrying precision p (any int), and the kind its class passes to the `Index` constructor decodes to Range |
| `IndexModel.Index.Hash` | src/com/microsoft/azure/documentdb/Index.java:121-123 | `Hash(dt)` is a hash index on dt with no precision, and the kind its class passes to the `Index` constructor decodes to Hash |
| `IndexModel.Index.HashWithPrecision` | src/com/microsoft/azure/documentdb/Index.java:136-138 | `Hash(dt, p)` is a hash index on dt carrying precision p (any int), and the kind its class passes to the `Index` constructor decodes to Hash |
| `IndexModel.Index.Spatial` | src/com/microsoft/azure/documentdb/Index.java:150-152 | `Spatial(dt)` is a spatial index on dt, and the kind its class passes to the `Index` constructor decodes to Spatial |

## Left out

- `PartitionKeyDefinitionMap.java` is an interface with two abstract methods (`getPartitionKeyDefinition`, `RefreshEntry`) and no implementation. There is no cache behaviour to model.
- JSON text parsing and serialisation (`JsonSerializable`, `org.json`) are not part of this model. `FromJsonString` takes the bag that parsing the text yields, so a parse failure is not modelled.
- `FromJsonObject` copies the given properties. Whether Java shares the caller's `JSONObject` is not modelled, nor are later changes made through such a shared object.
- `GetKind`: requires the `kind` property to be present (the class invariant `Valid`, which every constructor establishes). With it absent, Java's `valueOf(null)` would throw a NullPointerException, which the model does not represent.
- A `kind` value that is not a JSON string is not modelled, because the bag maps strings to strings.
- The logger is modelled as the list of warnings `GetKind` returns. The message text is not modelled.
- `WordUtils.ToTitle`: title-cases only the ASCII small letters and U+017F, and keeps every other character. Full Unicode title-casing is not modelled (U+0131 LATIN SMALL LETTER DOTLESS I, for example, title-cases to `I`). Apart from the capitals themselves, only `h`, `r`, `s` and U+017F title-case to `H`, `R` or `S`, the first letters of the kinds' names, so decoding outcomes are unaffected.
- `WordUtils.IsWhitespace`: follows `Character.isWhitespace` as of Java 9 (Unicode 6.3 onwards). Java 8 also counts U+180E MONGOLIAN VOWEL SEPARATOR as whitespace; on Java 8 a stored text with that character in it would still decode to no kind, as here, because no kind's spelling contains it.
- The source files of `RangeIndex`, `HashIndex`, `SpatialIndex`, `IndexKind`, `DataType` and `Constants` are not among the modelled files; the model declares what it assumes of them. `IndexKind` has the constants Hash, Range and Spatial, with those names. `Constants.Properties.INDEX_KIND` is `"kind"`. `KindOf` assumes each subclass passes its own kind to the `Index` constructor. `DataType` lists Number, String, Point, LineString and Polygon. The subclasses' own properties (data type, precision, default precision) are carried only as the factories' arguments.
- The factories do not validate precision, because the code does not. Any int is accepted.
