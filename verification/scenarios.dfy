/** Worked configurations taken through the compiler and the coercions. */
module Scenarios {

  import opened Wrappers
  import opened JsValues
  import opened Coercion
  import opened Schema

  /** `{loc: {type: 'location', from: ['x', 'y']}, name: 'text'}` on one row. */
  lemma LocationAndTextRow()
    ensures var locSpec := Object(map["type" := Str("location"), "from" := Arr([Str("x"), Str("y")])]);
      var es := [Entry("loc", locSpec), Entry("name", Bare("text"))];
      var row := map["x" := "1", "y" := "2", "name" := "Alice"];
      && Compile(es).Success?
      && Compile(es).value.Keys == {"loc", "name"}
      && Apply(Compile(es).value["loc"], row) == Wrapped(Location(Some("1"), Some("2")), locSpec.AsJs())
      && Apply(Compile(es).value["name"], row) == Wrapped(StrConst(Some("Alice")), Str("text"))
  {
    var locSpec := Object(map["type" := Str("location"), "from" := Arr([Str("x"), Str("y")])]);
    var es := [Entry("loc", locSpec), Entry("name", Bare("text"))];
    var m := Compile(es).value;
    CompiledFieldIsLastEntry(es, m, 0);
    CompiledFieldIsLastEntry(es, m, 1);
  }

  /** A bare `int` field `age` wraps the raw text with the tag string as options. */
  lemma BareIntField()
    ensures Apply(CompileField(Entry("age", Bare("int"))).value, map["age" := "42"])
         == Wrapped(IntConst(Some("42")), Str("int"))
  {
  }

  /** A bare `location` anywhere in the configuration aborts the compile. */
  lemma BareLocationAborts()
    ensures Compile([Entry("name", Bare("text")), Entry("loc", Bare("location")), Entry("rel", Bare("related"))])
         == Failure(MustUseObject("location"))
    ensures MustUseObject("location").Message() == "must use object for location type"
  {
    CompileStopsAtFirstRejected([Entry("name", Bare("text")), Entry("loc", Bare("location")), Entry("rel", Bare("related"))], 1);
  }

  /** `{type: 'related', from: ['a', 'b'], table: 'x'}` on `{a: '1', b: '2'}`. */
  lemma RelatedField()
    ensures var props := map["type" := Str("related"), "from" := Arr([Str("a"), Str("b")]), "table" := Str("x")];
      var row := map["a" := "1", "b" := "2"];
      Apply(CompileField(Entry("r", Object(props))).value, row)
      == Related(map[
           "type" := Str("related"),
           "table" := Str("x"),
           "record" := Obj(map["a" := Str("1"), "b" := Str("2")]),
           "from" := Arr([Str("a"), Str("b")])])
  {
    var row := map["a" := "1", "b" := "2"];
    assert RecordValue(row).props == map["a" := Str("1"), "b" := Str("2")];
  }
}
