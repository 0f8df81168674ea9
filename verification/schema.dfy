/**
 * The schema compiler of src/parse.js (`parseTypes`): each entry of
 * `config.fields` becomes a coercion descriptor, and a bare `related` or
 * `location` tag aborts the whole compilation.
 */
module Schema {

  import opened Wrappers
  import opened JsValues
  import opened Coercion

  /** A value of `config.fields`: a bare type tag, or an object `{type, from, ...}`. */
  datatype FieldSpec = Bare(tag: string) | Object(props: map<string, JsValue>) {

    /** The field value itself, as the JavaScript value handed on as `opts`. */
    function AsJs(): JsValue {
      match this
      case Bare(tag) => Str(tag)
      case Object(props) => Obj(props)
    }
  }

  /** One `[key, value]` pair of `Object.entries(config.fields)`. */
  datatype Entry = Entry(key: string, spec: FieldSpec)

  /** The error `parseTypes` throws. */
  datatype CompileError = MustUseObject(typeName: string) {
    /** The thrown text names the offending tag between a fixed prefix and suffix. */
    function Message(): (msg: string)
      ensures |msg| == |typeName| + 25
      ensures msg[..20] == "must use object for " && msg[|msg| - 5..] == " type"
      ensures msg[20..|msg| - 5] == typeName
    {
      "must use object for " + typeName + " type"
    }
  }

  /** The tags that cannot be given in the bare form. */
  const ObjectOnlyTags: set<string> := {"related", "location"}

  predicate Rejected(spec: FieldSpec) {
    spec.Bare? && spec.tag in ObjectOnlyTags
  }

  /** `value.type` / `value.from`: a missing property reads as `undefined`. */
  function Prop(props: map<string, JsValue>, name: string): JsValue {
    if name in props then props[name] else Undefined
  }

  /** `getFromValue(value.from || key)`. */
  function NormaliseFrom(key: string, from: JsValue): (cols: seq<JsValue>)
    ensures from.Arr? ==> cols == from.items
    ensures Truthy(from) && !from.Arr? ==> cols == [from]
    ensures !Truthy(from) ==> cols == [Str(key)]
  {
    GetFromValue(if Truthy(from) then from else Str(key))
  }

  /** The body of the `reduce` callback for one entry, before it stores into the map. */
  function CompileField(e: Entry): (r: Result<Desc, CompileError>)
    ensures r.Failure? <==> Rejected(e.spec)
    ensures r.Failure? ==> r.error == MustUseObject(e.spec.tag)
    ensures r.Success? ==> r.value.opts == e.spec.AsJs()
  {
    match e.spec
    case Bare(tag) =>
      if tag in ObjectOnlyTags then Failure(MustUseObject(tag))
      else Success(Dispatch(Str(tag), [Str(e.key)], e.spec.AsJs()))
    case Object(props) =>
      Success(Dispatch(Prop(props, "type"), NormaliseFrom(e.key, Prop(props, "from")), e.spec.AsJs()))
  }

  /** The keys of a list of entries. */
  function KeysOf(es: seq<Entry>): set<string> {
    set i | 0 <= i < |es| :: es[i].key
  }

  /**
   * `parseTypes`: a left fold over the entries that throws at the first
   * rejected one. On success there is one descriptor per key of the
   * configuration and no other; a failure carries no partial map.
   */
  function Compile(es: seq<Entry>): (r: Result<map<string, Desc>, CompileError>)
    ensures r.Success? <==> forall i :: 0 <= i < |es| ==> !Rejected(es[i].spec)
    ensures r.Success? ==> r.value.Keys == KeysOf(es)
  {
    if es == [] then Success(map[])
    else
      var last := es[|es| - 1];
      match Compile(es[..|es| - 1])
      case Failure(err) => Failure(err)
      case Success(m) =>
        match CompileField(last)
        case Failure(err) => Failure(err)
        case Success(d) =>
          assert KeysOf(es) == KeysOf(es[..|es| - 1]) + {last.key} by {
            forall k | k in KeysOf(es) ensures k in KeysOf(es[..|es| - 1]) + {last.key} {
              var i :| 0 <= i < |es| && es[i].key == k;
              if i < |es| - 1 {
                assert es[..|es| - 1][i] == es[i];
              }
            }
          }
          Success(m[last.key := d])
  }

  /**
   * Fail-fast: the first rejected entry decides the outcome, whatever
   * follows it, and the error names that entry's tag.
   */
  lemma {:induction false} CompileStopsAtFirstRejected(es: seq<Entry>, i: nat)
    requires i < |es| && Rejected(es[i].spec)
    requires forall j :: 0 <= j < i ==> !Rejected(es[j].spec)
    ensures Compile(es) == Failure(MustUseObject(es[i].spec.tag))
  {
    var prefix := es[..|es| - 1];
    if i == |es| - 1 {
      assert forall j :: 0 <= j < |prefix| ==> prefix[j] == es[j];
      assert Compile(prefix).Success?;
    } else {
      assert prefix[i] == es[i];
      CompileStopsAtFirstRejected(prefix, i);
    }
  }

  /**
   * Each key of the compiled map holds what its entry compiles to; if a
   * key is repeated, the last entry with that key wins, as `m[key] = ...`
   * in the fold overwrites.
   */
  lemma {:induction false} CompiledFieldIsLastEntry(es: seq<Entry>, m: map<string, Desc>, i: nat)
    requires Compile(es) == Success(m)
    requires i < |es|
    requires forall j :: i < j < |es| ==> es[j].key != es[i].key
    ensures es[i].key in m && CompileField(es[i]) == Success(m[es[i].key])
  {
    var prefix := es[..|es| - 1];
    var last := es[|es| - 1];
    var pm := Compile(prefix).value;
    assert m == pm[last.key := CompileField(last).value];
    if i < |es| - 1 {
      assert prefix[i] == es[i];
      forall j | i < j < |prefix| ensures prefix[j].key != prefix[i].key {
        assert prefix[j] == es[j];
      }
      CompiledFieldIsLastEntry(prefix, pm, i);
    }
  }

  predicate DistinctKeys(es: seq<Entry>) {
    forall i, j :: 0 <= i < j < |es| ==> es[i].key != es[j].key
  }

  /** Two listings of the same entries have the same keys. */
  lemma SameEntriesSameKeys(es1: seq<Entry>, es2: seq<Entry>)
    requires forall e :: e in es1 <==> e in es2
    ensures KeysOf(es1) == KeysOf(es2)
  {
    forall k | k in KeysOf(es1) ensures k in KeysOf(es2) {
      var i :| 0 <= i < |es1| && es1[i].key == k;
      assert es1[i] in es2;
    }
    forall k | k in KeysOf(es2) ensures k in KeysOf(es1) {
      var i :| 0 <= i < |es2| && es2[i].key == k;
      assert es2[i] in es1;
    }
  }

  /** Under distinct keys, a compiled map holds exactly its entries' descriptors. */
  lemma CompiledFieldOfEntry(es: seq<Entry>, m: map<string, Desc>, e: Entry)
    requires DistinctKeys(es)
    requires Compile(es) == Success(m)
    requires e in es
    ensures e.key in m && CompileField(e) == Success(m[e.key])
  {
    var i :| 0 <= i < |es| && es[i] == e;
    CompiledFieldIsLastEntry(es, m, i);
  }

  /**
   * The order of `Object.entries` does not matter to a successful compile:
   * two listings of the same entries with distinct keys compile to the same
   * map, and one succeeds exactly when the other does.
   */
  lemma {:induction false} CompileOrderIrrelevant(es1: seq<Entry>, es2: seq<Entry>)
    requires DistinctKeys(es1) && DistinctKeys(es2)
    requires forall e :: e in es1 <==> e in es2
    ensures Compile(es1).Success? <==> Compile(es2).Success?
    ensures Compile(es1).Success? ==> Compile(es1) == Compile(es2)
  {
    var r1, r2 := Compile(es1), Compile(es2);
    if r1.Success? {
      forall j | 0 <= j < |es2| ensures !Rejected(es2[j].spec) {
        assert es2[j] in es1;
      }
      assert r2.Success?;
      var m1, m2 := r1.value, r2.value;
      SameEntriesSameKeys(es1, es2);
      forall k | k in m1 ensures m1[k] == m2[k] {
        var i :| 0 <= i < |es1| && es1[i].key == k;
        CompiledFieldOfEntry(es1, m1, es1[i]);
        CompiledFieldOfEntry(es2, m2, es1[i]);
      }
      assert m1 == m2;
    } else {
      var i :| 0 <= i < |es1| && Rejected(es1[i].spec);
      assert es1[i] in es2;
    }
  }

  /**
   * A bare tag other than related/location compiles with `from = [key]`,
   * the tag string itself as options, and a coercion that reads
   * `record[key]`.
   */
  lemma BareFieldReadsOwnColumn(key: string, tag: string, record: Record)
    requires tag !in ObjectOnlyTags
    ensures CompileField(Entry(key, Bare(tag))).Success?
    ensures var d := CompileField(Entry(key, Bare(tag))).value;
      && d.from == [Str(key)]
      && d.kind.IsScalar()
      && d.kind == ClassifyType(Str(tag))
      && Apply(d, record) == Wrapped(ScalarNode(d.kind, Lookup(record, key)), Str(tag))
  {
  }

  /**
   * The column list of an object field: an array is kept as it is, any
   * other truthy value is a one-column list, and a missing or falsy `from`
   * falls back to the field's own key. Only an empty array yields no column.
   */
  lemma FromNormalisation(key: string, props: map<string, JsValue>)
    ensures var from := Prop(props, "from");
      var d := CompileField(Entry(key, Object(props))).value;
      && (from.Arr? ==> d.from == from.items)
      && (Truthy(from) && !from.Arr? ==> d.from == [from])
      && (!Truthy(from) ==> d.from == [Str(key)])
      && ("from" !in props ==> d.from == [Str(key)])
      && (d.from == [] <==> from == Arr([]))
  {
  }

  /**
   * An object field is dispatched on its `type` property; with no `type`
   * it is a text field reading `record[from[0]]`.
   */
  lemma ObjectFieldDispatch(key: string, props: map<string, JsValue>)
    ensures CompileField(Entry(key, Object(props))).value.kind == ClassifyType(Prop(props, "type"))
    ensures "type" !in props ==> CompileField(Entry(key, Object(props))).value.kind == TextTag
  {
  }

  /**
   * A related field hands its builder the entire field value, `type`
   * included, together with the record and the normalised column list,
   * which override any user option of the same name.
   */
  lemma RelatedFieldArguments(key: string, props: map<string, JsValue>, record: Record)
    requires Prop(props, "type") == Str("related")
    ensures var d := CompileField(Entry(key, Object(props))).value;
      var v := Apply(d, record);
      && v.Related?
      && v.args.Keys == props.Keys + {"record", "from"}
      && v.args["type"] == Str("related")
      && v.args["from"] == Arr(NormaliseFrom(key, Prop(props, "from")))
      && v.args["record"] == RecordValue(record)
      && (forall k :: k in props && k != "record" && k != "from" ==> v.args[k] == props[k])
  {
  }
}

