/**
 * The coercion dispatcher of src/parse.js (`getCoercionFunc` and its helpers
 * `getFromValue` and `getValuesFromKeys`).
 *
 * A coercion function is a closure in the source; here it is a descriptor
 * `Desc(kind, from, opts)` together with `Apply`, which gives the value the
 * closure returns for a record. The value builders (`ast.A_Const`,
 * `makeBoundingBox`, `makeLocation`, `getRelatedField`, `wrapValue`) are
 * uninterpreted constructors of `Node` and `Value`.
 */
module Coercion {

  import opened Wrappers
  import opened JsValues

  /** The dispatch table's cases; `TextTag` is also the `default` case. */
  datatype Kind = IntTag | FloatTag | BBoxTag | LocationTag | RelatedTag | TextTag {

    /** The kinds that read exactly one raw string, `record[from[0]]`. */
    predicate IsScalar() {
      IntTag? || FloatTag? || BBoxTag? || TextTag?
    }
  }

  /** The type names the `switch` recognises. */
  const TagNames: set<string> := {"int", "float", "bbox", "location", "related", "text"}

  /** The `case` label under which each kind appears. */
  function TagName(k: Kind): (name: string)
    ensures name in TagNames
  {
    match k
    case IntTag => "int"
    case FloatTag => "float"
    case BBoxTag => "bbox"
    case LocationTag => "location"
    case RelatedTag => "related"
    case TextTag => "text"
  }

  /**
   * The `switch (type)` of `getCoercionFunc`: strict equality against each
   * case label, and every other value (any other string, `undefined`, a
   * number, ...) falls to the default, text.
   */
  function ClassifyType(t: JsValue): (k: Kind)
    ensures t.Str? && t.s in TagNames ==> TagName(k) == t.s
    ensures !(t.Str? && t.s in TagNames) ==> k == TextTag
  {
    if t == Str("int") then IntTag
    else if t == Str("float") then FloatTag
    else if t == Str("bbox") then BBoxTag
    else if t == Str("location") then LocationTag
    else if t == Str("related") then RelatedTag
    else TextTag
  }

  /** Each case label selects its own case: TagName and ClassifyType are inverse. */
  lemma KindNamesRoundTrip(k: Kind)
    ensures ClassifyType(Str(TagName(k))) == k
  {
  }

  /** The AST nodes and composite values the builders produce, left uninterpreted. */
  datatype Node =
    | IntConst(ival: Option<string>)                  // ast.A_Const({val: ast.Integer({ival})})
    | FloatConst(str: Option<string>)                 // ast.A_Const({val: ast.Float({str})})
    | StrConst(str: Option<string>)                   // ast.A_Const({val: ast.String({str})})
    | BBox(raw: Option<string>)                       // makeBoundingBox(raw)
    | Location(lon: Option<string>, lat: Option<string>)  // makeLocation(lon, lat)

  /** What a coercion function returns. */
  datatype Value =
    | Wrapped(node: Node, opts: JsValue)              // wrapValue(node, opts)
    | Related(args: map<string, JsValue>)             // getRelatedField(args)

  /** A compiled coercion function: the case chosen, the columns and the options it closes over. */
  datatype Desc = Desc(kind: Kind, from: seq<JsValue>, opts: JsValue)

  /** `getFromValue`: an array is used as the column list, any other value is a single column. */
  function GetFromValue(from: JsValue): (cols: seq<JsValue>)
    ensures from.Arr? ==> cols == from.items
    ensures !from.Arr? ==> |cols| == 1 && cols[0] == from
  {
    if from.Arr? then from.items else [from]
  }

  /** `getFromValue` is idempotent, and only an empty array yields no columns. */
  lemma GetFromValueProperties(v: JsValue)
    ensures GetFromValue(Arr(GetFromValue(v))) == GetFromValue(v)
    ensures GetFromValue(v) == [] <==> v == Arr([])
  {
  }

  /** `xs[i]` in JavaScript: `undefined` past the end. */
  function At(xs: seq<JsValue>, i: nat): JsValue {
    if i < |xs| then xs[i] else Undefined
  }

  /** `record[from[i]]`. */
  function Column(record: Record, from: seq<JsValue>, i: nat): Option<string> {
    Lookup(record, ToKey(At(from, i)))
  }

  /** `getValuesFromKeys(object, keys)`, with `row` for `object`: one read per key, in order. */
  function ValuesFromKeys(row: Record, keys: seq<JsValue>): (vals: seq<Option<string>>)
    ensures |vals| == |keys|
    ensures forall i :: 0 <= i < |keys| ==> vals[i] == Column(row, keys, i)
  {
    seq(|keys|, i requires 0 <= i < |keys| => Lookup(row, ToKey(keys[i])))
  }

  /** `keys.map(...)` distributes over concatenation of the key list. */
  lemma ValuesFromKeysConcat(row: Record, a: seq<JsValue>, b: seq<JsValue>)
    ensures ValuesFromKeys(row, a + b) == ValuesFromKeys(row, a) + ValuesFromKeys(row, b)
  {
  }

  /** Array destructuring `const [x0, x1] = vals`: a missing element is `undefined`. */
  function Element(vals: seq<Option<string>>, i: nat): Option<string> {
    if i < |vals| then vals[i] else None
  }

  /** `getCoercionFunc(type, from, opts)`. */
  function Dispatch(t: JsValue, from: seq<JsValue>, opts: JsValue): (d: Desc)
    ensures d.from == from && d.opts == opts
    ensures t.Str? && t.s in TagNames ==> TagName(d.kind) == t.s
    ensures !(t.Str? && t.s in TagNames) ==> d.kind == TextTag
  {
    Desc(ClassifyType(t), from, opts)
  }

  /** The node a single-column case builds from its raw string. */
  function ScalarNode(k: Kind, raw: Option<string>): Node
    requires k.IsScalar()
  {
    match k
    case IntTag => IntConst(raw)
    case FloatTag => FloatConst(raw)
    case BBoxTag => BBox(raw)
    case TextTag => StrConst(raw)
  }

  /**
   * The result of calling the compiled coercion function on a record. Every
   * case except `related` passes its node through `wrapValue` with the
   * field's options; `related` hands `{...opts, record, from}` to the
   * related-field builder and returns its result as it is.
   */
  function Apply(d: Desc, record: Record): (v: Value)
    ensures v.Related? <==> d.kind == RelatedTag
    ensures v.Wrapped? ==> v.opts == d.opts
  {
    match d.kind
    case LocationTag =>
      var vals := ValuesFromKeys(record, d.from);
      Wrapped(Location(Element(vals, 0), Element(vals, 1)), d.opts)
    case RelatedTag =>
      Related(Spread(d.opts)["record" := RecordValue(record)]["from" := Arr(d.from)])
    case _ =>
      Wrapped(ScalarNode(d.kind, Column(record, d.from, 0)), d.opts)
  }

  /** The record columns a non-related coercion may consult. */
  function ColumnsRead(d: Desc): set<string>
    requires d.kind != RelatedTag
  {
    if d.kind == LocationTag then set i | 0 <= i < |d.from| && i < 2 :: ToKey(d.from[i])
    else {ToKey(At(d.from, 0))}
  }

  /**
   * int, float, bbox and text read `record[from[0]]` and nothing else: the
   * remaining columns are ignored, and an empty column list reads the
   * property named "undefined".
   */
  lemma ScalarReadsFirstColumnOnly(k: Kind, from: seq<JsValue>, opts: JsValue, record: Record)
    requires k.IsScalar()
    ensures |from| >= 1 ==>
      Apply(Desc(k, from, opts), record) == Apply(Desc(k, from[..1], opts), record)
    ensures |from| >= 1 ==>
      Apply(Desc(k, from, opts), record) == Wrapped(ScalarNode(k, Lookup(record, ToKey(from[0]))), opts)
    ensures from == [] ==>
      Apply(Desc(k, from, opts), record) == Wrapped(ScalarNode(k, Lookup(record, "undefined")), opts)
  {
  }

  /**
   * location hands `record[from[0]]` and `record[from[1]]` to the location
   * builder as (longitude, latitude), in that order; columns past the second
   * are ignored and a missing second column gives an undefined latitude.
   */
  lemma LocationReadsLonThenLat(from: seq<JsValue>, opts: JsValue, record: Record)
    ensures |from| >= 2 ==>
      Apply(Desc(LocationTag, from, opts), record)
      == Wrapped(Location(Lookup(record, ToKey(from[0])), Lookup(record, ToKey(from[1]))), opts)
    ensures |from| >= 2 ==>
      Apply(Desc(LocationTag, from, opts), record) == Apply(Desc(LocationTag, from[..2], opts), record)
    ensures |from| == 1 ==>
      Apply(Desc(LocationTag, from, opts), record)
      == Wrapped(Location(Lookup(record, ToKey(from[0])), None), opts)
    ensures from == [] ==>
      Apply(Desc(LocationTag, from, opts), record) == Wrapped(Location(None, None), opts)
  {
  }

  /**
   * related calls the builder with `{...opts, record, from}`: every option
   * survives unless it is named `record` or `from`, and those two carry the
   * whole record and the column list, overriding the user's options.
   */
  lemma RelatedForwardsArguments(from: seq<JsValue>, opts: JsValue, record: Record)
    ensures Apply(Desc(RelatedTag, from, opts), record).Related?
    ensures Apply(Desc(RelatedTag, from, opts), record).args.Keys == Spread(opts).Keys + {"record", "from"}
    ensures Apply(Desc(RelatedTag, from, opts), record).args["from"] == Arr(from)
    ensures Apply(Desc(RelatedTag, from, opts), record).args["record"] == RecordValue(record)
    ensures forall k :: k in Spread(opts) && k != "record" && k != "from" ==>
      Apply(Desc(RelatedTag, from, opts), record).args[k] == Spread(opts)[k]
  {
  }

  /** Each case label selects its own builder: int, float and text build the
      matching constant node, bbox the bounding box, all from `record[from[0]]`. */
  lemma CaseLabelsSelectBuilders(from: seq<JsValue>, opts: JsValue, record: Record)
    ensures Apply(Dispatch(Str("int"), from, opts), record) == Wrapped(IntConst(Column(record, from, 0)), opts)
    ensures Apply(Dispatch(Str("float"), from, opts), record) == Wrapped(FloatConst(Column(record, from, 0)), opts)
    ensures Apply(Dispatch(Str("bbox"), from, opts), record) == Wrapped(BBox(Column(record, from, 0)), opts)
    ensures Apply(Dispatch(Str("text"), from, opts), record) == Wrapped(StrConst(Column(record, from, 0)), opts)
    ensures Apply(Dispatch(Str("location"), from, opts), record).node.Location?
    ensures Apply(Dispatch(Str("related"), from, opts), record).Related?
  {
  }

  /** A type the switch does not name behaves exactly as text, and raises nothing. */
  lemma UnknownTypeIsText(t: JsValue, from: seq<JsValue>, opts: JsValue, record: Record)
    requires !(t.Str? && t.s in TagNames)
    ensures Dispatch(t, from, opts) == Dispatch(Str("text"), from, opts)
    ensures Apply(Dispatch(t, from, opts), record)
         == Wrapped(StrConst(Column(record, from, 0)), opts)
  {
  }

  /** A non-related coercion depends on the record only through ColumnsRead. */
  lemma ApplyReadsOnlyItsColumns(d: Desc, r1: Record, r2: Record)
    requires d.kind != RelatedTag
    requires forall c :: c in ColumnsRead(d) ==> Lookup(r1, c) == Lookup(r2, c)
    ensures Apply(d, r1) == Apply(d, r2)
  {
    if d.kind == LocationTag {
      if |d.from| >= 1 {
        assert ToKey(d.from[0]) in ColumnsRead(d);
      }
      if |d.from| >= 2 {
        assert ToKey(d.from[1]) in ColumnsRead(d);
      }
    } else {
      assert ToKey(At(d.from, 0)) in ColumnsRead(d);
    }
  }
}
