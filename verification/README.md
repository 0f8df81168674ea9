# csv-to-pg field compiler and coercion dispatcher, in Dafny

This project models the core of csv-to-pg's `src/parse.js`: the schema
compiler `parseTypes` and the coercion dispatcher `getCoercionFunc` with its
helpers `getFromValue` and `getValuesFromKeys`.

`parseTypes` turns `config.fields` into one coercion per output field. A field
value is either a bare type tag or an object `{type, from, ...}`. The compiler
normalises each entry to a type, a column list and options. It throws on the
first bare `related` or `location` tag. The dispatcher turns
(type, columns, options) into a per-record function. That function reads raw
strings out of a CSV row and hands them to a value builder.

Files:

- `wrappers.dfy` (`Wrappers`): `Option` (where `None` is JavaScript
  `undefined`) and `Result` (a value or the thrown error).
- `js_values.dfy` (`JsValues`): the JavaScript values a configuration holds.
  Also the language rules the code relies on: truthiness for
  `value.from || key`, property-key conversion for `record[from[0]]`, object
  spread for `{...opts}`, and missing properties reading as `undefined`.
- `coercion.dfy` (`Coercion`): the dispatch table. A compiled coercion is a
  descriptor `Desc(kind, from, opts)` rather than a closure. `Apply(desc, record)`
  is the value that closure returns. The builders (`ast.A_Const` with
  `Integer`/`Float`/`String`, `makeBoundingBox`, `makeLocation`,
  `getRelatedField`, `wrapValue`) are uninterpreted constructors of `Node`
  and `Value`.
- `schema.dfy` (`Schema`): field values, the per-entry compile step, and
  `Compile`. `Compile` is the `reduce` over `Object.entries(config.fields)`,
  taken as a sequence of entries. It returns `Result<map<string, Desc>, CompileError>`.
- `scenarios.dfy` (`Scenarios`): worked configurations taken through both stages.

Two behaviours of `parseTypes` worth noting:

- A bare field such as `age: 'int'` wraps its node with the field value
  itself as options, which is the string `'int'`, not `{}`
  (`getCoercionFunc(type, from, value)` at src/parse.js:109).
- A `related` field passes its whole field value to the builder, so the
  builder's argument also carries `type: 'related'` next to the user's
  options, `record` and `from`.

## Model

| member | source | states |
|---|---|---|
| Coercion.TagName | src/parse.js:53-85 | every case label is one of the six type names the switch recognises |
| Coercion.Dispatch | src/parse.js:51-92 | the factory closes over `from` and `opts` unchanged and picks the case its type names, falling back to text for any other type |
| Coercion.CaseLabelsSelectBuilders | src/parse.js:53-90 | `int` builds an integer constant, `float` a float constant, `bbox` a bounding box and `text` a string constant, each from `record[from[0]]` and wrapped with the options; `location` builds a location and `related` calls the related builder |
| Coercion.GetFromValueProperties | src/parse.js:42-45 | normalising an already normalised list changes nothing, and only an empty array gives an empty list |
| Coercion.ValuesFromKeysConcat | src/parse.js:47 | the reads for a concatenated key list are the reads for each part, concatenated, so later keys never affect earlier values |
| Coercion.ClassifyType | src/parse.js:51-92 | a type equal to one of the six case labels selects that case; every other value, including `undefined`, a number or an unknown string, selects the text/default case |
| Coercion.KindNamesRoundTrip | src/parse.js:52-86 | every case is reached by its own label: classifying a case's label gives back that case |
| Coercion.GetFromValue | src/parse.js:42-45 | an array is returned as the column list unchanged; any other value becomes a one-element list holding it |
| Coercion.ValuesFromKeys | src/parse.js:47 | one read per key, in key order, each the record's value under that key converted to a property key, `undefined` when absent |
| Coercion.Apply | src/parse.js:51-92 | the result is a related-builder call exactly for the related case; every other case wraps its node with the field's own options |
| Coercion.ScalarReadsFirstColumnOnly | src/parse.js:53-70 | int, float, bbox and text build their node from `record[from[0]]` alone; trimming `from` to its first column changes nothing; an empty `from` reads the property named "undefined" |
| Coercion.LocationReadsLonThenLat | src/parse.js:71-76 | the location builder gets (record[from[0]], record[from[1]]) in that order; columns past the second are ignored; a one-column `from` gives an undefined latitude, an empty one undefined for both |
| Coercion.RelatedForwardsArguments | src/parse.js:77-84 | the builder's argument has exactly the options' keys plus `record` and `from`; `record` is the whole row (every column, as a string) and `from` the column list, overriding same-named options; every other option is passed unchanged; the result is not wrapped |
| Coercion.UnknownTypeIsText | src/parse.js:85-90 | a type the switch does not name compiles to the same coercion as `text` and yields a wrapped string constant of `record[from[0]]`, raising nothing |
| Coercion.ApplyReadsOnlyItsColumns | src/parse.js:53-76 | two records that agree on the columns a non-related case consults (from[0], and from[1] for location) give the same value |
| Schema.CompileField | src/parse.js:96-109 | one entry fails exactly when it is a bare `related` or `location` tag, with the "must use object for <type> type" error; otherwise its coercion carries the whole field value as options |
| Schema.CompileError.Message | src/parse.js:103 | the thrown text is "must use object for ", the offending tag, then " type" |
| Schema.NormaliseFrom | src/parse.js:107 | an array `from` is the column list, another truthy `from` is one column, a falsy `from` falls back to the field's own key |
| Schema.Compile | src/parse.js:94-112 | compilation succeeds exactly when no entry is a bare `related`/`location` tag, and then the compiled map has exactly the configuration's keys |
| Schema.CompileStopsAtFirstRejected | src/parse.js:95-104 | the first bare `related`/`location` entry aborts the whole compile with its own error, whatever follows; no partial map is returned |
| Schema.CompiledFieldIsLastEntry | src/parse.js:95-111 | each key of the compiled map holds the coercion compiled from its entry (the last entry with that key) |
| Schema.SameEntriesSameKeys | src/parse.js:95 | two listings of the same entries name the same keys |
| Schema.CompiledFieldOfEntry | src/parse.js:109 | with distinct keys, every entry's compiled coercion sits under its key |
| Schema.CompileOrderIrrelevant | src/parse.js:95-111 | the entry order does not change whether compilation succeeds or the map it builds |
| Schema.BareFieldReadsOwnColumn | src/parse.js:99-101 | a bare tag other than related/location selects the case it names and compiles to `from = [key]` with the tag string as options, and its coercion reads `record[key]` |
| Schema.FromNormalisation | src/parse.js:105-107 | an array `from` is kept, another truthy `from` becomes a one-column list, an absent or falsy `from` falls back to `[key]`; only an empty array gives no columns |
| Schema.ObjectFieldDispatch | src/parse.js:105-106 | an object field dispatches on its `type` property, and with no `type` it is a text field |
| Schema.RelatedFieldArguments | src/parse.js:77-84 | a related object field gives its builder every property of the field value, `type` included, plus the whole record and the normalised `from`, which win over same-named properties |
| Scenarios.LocationAndTextRow | src/parse.js:71-76 | `{loc: {type: 'location', from: ['x','y']}, name: 'text'}` on `{x:'1', y:'2', name:'Alice'}` gives Location('1','2') and the string constant 'Alice' |
| Scenarios.BareIntField | src/parse.js:53-59 | a bare `int` field `age` on `{age: '42'}` gives the integer constant '42' wrapped with the options `'int'` |
| Scenarios.BareLocationAborts | src/parse.js:102-104 | a bare `location` after a valid field aborts with "must use object for location type", before a later bare `related` is looked at |
| Scenarios.RelatedField | src/parse.js:77-84 | `{type:'related', from:['a','b'], table:'x'}` on `{a:'1', b:'2'}` calls the builder with exactly type, table, record and from |

## Left out

- `parse` (src/parse.js:12-26): it streams a file through `csv-parser` and resolves a Promise. That is file I/O and event handling; a row here is simply a `map<string, string>`.
- `readConfig` (src/parse.js:28-40): file reads, dynamic `require` and JSON/YAML parsing are I/O; the model starts from the parsed `fields`.
- The value builders `makeBoundingBox`, `makeLocation`, `getRelatedField`, `wrapValue` and the `pg-ast` node constructors: `./utils` and `pg-ast` are not part of this model, so they are uninterpreted constructors.
- Numeric parsing: the int and float cases pass the raw string through unparsed, so no number semantics are needed for them.
- Field values that are neither a string nor an object (`null` crashes on `value.type`; numbers and booleans) are not in `FieldSpec`.
- JavaScript numbers in configuration values are integers here. No fractions, NaN, or exponent formatting of numbers at or above 10^21 when they become property keys.
- Schema.Compile: its key-set promise does not cover a field named `__proto__`. JSON parsing makes that an own property, but `m[key] = ...` on the `{}` accumulator runs the prototype setter, so JavaScript's result has no such own key, while the model stores it like any other key.
- Object spread of a string or an array into the related builder's argument is modelled (index keys "0", "1", ...), but `parseTypes` never reaches it: it rejects a bare `related`, and an object field value is always an object. String spread splits by Dafny `char` here, where JavaScript splits by UTF-16 code unit.
- Properties inherited through the prototype chain (`record['constructor']`, `value.toString`) are not modelled; every read sees own properties only.
- The order `Object.entries` lists keys in (integer-like keys first) is taken as given: `Compile` receives the entries in that order.
- Applying a compiled schema to every row of a file belongs to the caller of `parseTypes`, outside src/parse.js, and is not modelled beyond `Apply` on one field.
