/**
 * The Graphite processor's `process`: for the fields a parser extracted from a
 * line and the metric key specifications the parser passes along, the sequence
 * of metrics handed to the Graphite client. Each specification resolves its key
 * template, its value (a number, or a template read as a number with an optional
 * byte-unit suffix) and its optional timestamp template; a specification whose
 * templates name a missing field sends nothing, every other one sends exactly one
 * metric whose value is scaled by the multiplier.
 */
module Graphite {
  import opened Wrappers
  import opened ConfigValues
  import opened Templates
  import opened ModuleFactory

  datatype MetricValue = Constant(amount: real) | FromPattern(pattern: Template)

  /** One entry of the `keys` processor parameter. */
  datatype KeySpec = KeySpec(key: Template, value: MetricValue, multiplier: real, timestamp: Option<Template>)

  /** A call of the Graphite client: sendMetrics(key, value) or sendMetrics(key, value, timestamp). */
  datatype Send = Send(key: string, value: real) | SendAt(key: string, value: real, timestamp: nat)

  function ResolveValue(v: MetricValue, fields: FieldMap): Option<real> {
    match v
    case Constant(x) => Some(x)
    case FromPattern(t) =>
      match Resolve(t, fields)
      case None => None
      case Some(s) => ParseNumber(s)
  }

  /** The metric one key specification sends for the line, if it applies. */
  function Emit(spec: KeySpec, fields: FieldMap): (r: Option<Send>)
    ensures r.Some? ==> && Resolve(spec.key, fields).Some? && ResolveValue(spec.value, fields).Some?
                        && r.value.key == Resolve(spec.key, fields).value
                        && r.value.value == ResolveValue(spec.value, fields).value * spec.multiplier
                        && (r.value.SendAt? <==> spec.timestamp.Some?)
  {
    var key, value := Resolve(spec.key, fields), ResolveValue(spec.value, fields);
    if key.None? || value.None? then None
    else
      match spec.timestamp
      case None => Some(Send(key.value, value.value * spec.multiplier))
      case Some(t) =>
        match Resolve(t, fields)
        case None => None
        case Some(s) =>
          match ParseNat(s)
          case None => None
          case Some(ts) => Some(SendAt(key.value, value.value * spec.multiplier, ts))
  }

  /** A specification whose key, value or timestamp template names a field the line lacks sends nothing. */
  lemma EmitSkipsMissingField(spec: KeySpec, fields: FieldMap)
    requires || !Covers(spec.key, fields)
             || (spec.value.FromPattern? && !Covers(spec.value.pattern, fields))
             || (spec.timestamp.Some? && !Covers(spec.timestamp.value, fields))
    ensures Emit(spec, fields).None?
  {
    ResolveDefinedIff(spec.key, fields);
    if spec.value.FromPattern? {
      ResolveDefinedIff(spec.value.pattern, fields);
    }
    if spec.timestamp.Some? {
      ResolveDefinedIff(spec.timestamp.value, fields);
    }
  }

  /** A specification whose fields are all present, and whose value and timestamp read as numbers, sends its metric. */
  lemma EmitAppliesWhenResolved(spec: KeySpec, fields: FieldMap)
    requires Covers(spec.key, fields)
    requires ResolveValue(spec.value, fields).Some?
    requires spec.timestamp.Some? ==> var ts := Resolve(spec.timestamp.value, fields); ts.Some? && ParseNat(ts.value).Some?
    ensures Emit(spec, fields).Some?
    ensures spec.timestamp.Some? ==> Emit(spec, fields).value.timestamp == ParseNat(Resolve(spec.timestamp.value, fields).value).value
  {
    ResolveDefinedIff(spec.key, fields);
  }

  /** process(parserOutput, params): the metrics sent, one per applicable key specification, in order. */
  function Process(fields: FieldMap, specs: seq<KeySpec>): (sends: seq<Send>)
    ensures |sends| <= |specs|
  {
    if specs == [] then []
    else
      (match Emit(specs[0], fields) case None => [] case Some(s) => [s]) + Process(fields, specs[1..])
  }

  /** Key specifications are independent: processing a list in two parts sends the concatenation of both parts' metrics. */
  lemma {:induction false} ProcessAppend(fields: FieldMap, a: seq<KeySpec>, b: seq<KeySpec>)
    ensures Process(fields, a + b) == Process(fields, a) + Process(fields, b)
  {
    if a == [] {
      assert a + b == b;
    } else {
      assert (a + b)[0] == a[0];
      assert (a + b)[1..] == a[1..] + b;
      ProcessAppend(fields, a[1..], b);
    }
  }

  /** When every specification applies, each one sends exactly its own metric, in order. */
  lemma {:induction false} ProcessAllApply(fields: FieldMap, specs: seq<KeySpec>)
    requires forall i :: 0 <= i < |specs| ==> Emit(specs[i], fields).Some?
    ensures |Process(fields, specs)| == |specs|
    ensures forall i :: 0 <= i < |specs| ==> Process(fields, specs)[i] == Emit(specs[i], fields).value
  {
    if specs != [] {
      assert forall i :: 0 <= i < |specs[1..]| ==> specs[1..][i] == specs[i + 1];
      ProcessAllApply(fields, specs[1..]);
    }
  }

  /** A line to which no specification applies sends nothing. */
  lemma {:induction false} ProcessNoneApply(fields: FieldMap, specs: seq<KeySpec>)
    requires forall i :: 0 <= i < |specs| ==> Emit(specs[i], fields).None?
    ensures Process(fields, specs) == []
  {
    if specs != [] {
      assert forall i :: 0 <= i < |specs[1..]| ==> specs[1..][i] == specs[i + 1];
      ProcessNoneApply(fields, specs[1..]);
    }
  }

  // ------------------------------------------------- the cases the tests fix

  /** The template `some.#p1#.key`. */
  function SomeP1Key(): Template {
    [Lit("some."), Field("p1"), Lit(".key")]
  }

  /** A single key specification with multiplier 1 and no timestamp. */
  function Single(key: Template, value: MetricValue): seq<KeySpec> {
    [KeySpec(key, value, 1.0, None)]
  }

  /** One specification sends at most its own metric. */
  lemma ProcessSingle(fields: FieldMap, spec: KeySpec)
    ensures Process(fields, [spec]) == match Emit(spec, fields) case None => [] case Some(m) => [m]
  {
  }

  lemma ResolveLit(s: string, fields: FieldMap)
    ensures Resolve([Lit(s)], fields) == Some(s)
  {
    assert [Lit(s)][1..] == [];
    assert s + "" == s;
  }

  /** A `prefix#name#suffix` template resolves to the field's value between the two literals. */
  lemma ResolveLitFieldLit(prefix: string, name: string, suffix: string, fields: FieldMap)
    requires name in fields
    ensures Resolve([Lit(prefix), Field(name), Lit(suffix)], fields) == Some(prefix + fields[name] + suffix)
  {
    var t: Template := [Lit(prefix), Field(name), Lit(suffix)];
    assert t[1..] == [Field(name), Lit(suffix)];
    assert t[1..][1..] == [Lit(suffix)];
    ResolveLit(suffix, fields);
    assert prefix + (fields[name] + suffix) == prefix + fields[name] + suffix;
  }

  lemma ResolveSomeP1Key(fields: FieldMap)
    ensures "p1" in fields ==> Resolve(SomeP1Key(), fields) == Some("some." + fields["p1"] + ".key")
    ensures "p1" !in fields ==> Resolve(SomeP1Key(), fields) == None
  {
    var t := SomeP1Key();
    if "p1" in fields {
      ResolveLitFieldLit("some.", "p1", ".key", fields);
    } else {
      assert t[1..] == [Field("p1"), Lit(".key")];
    }
  }

  lemma LiteralKeyAndValue()
    ensures Process(map[], Single([Lit("key")], Constant(5.0))) == [Send("key", 5.0)]
  {
    ResolveLit("key", map[]);
    ProcessSingle(map[], KeySpec([Lit("key")], Constant(5.0), 1.0, None));
  }

  lemma FieldInKey()
    ensures Process(map["p1" := "v1"], Single(SomeP1Key(), Constant(5.0))) == [Send("some.v1.key", 5.0)]
  {
    var fields := map["p1" := "v1"];
    ResolveSomeP1Key(fields);
    assert "some." + "v1" + ".key" == "some.v1.key";
    ProcessSingle(fields, KeySpec(SomeP1Key(), Constant(5.0), 1.0, None));
  }

  lemma ValueFromField()
    ensures Process(map["v1" := "5"], Single([Lit("key")], FromPattern([Field("v1")]))) == [Send("key", 5.0)]
  {
    var fields := map["v1" := "5"];
    ResolveLit("key", fields);
    ResolveField("v1", fields);
    ParsePlainNumberRoundTrip(5);
    ProcessSingle(fields, KeySpec([Lit("key")], FromPattern([Field("v1")]), 1.0, None));
  }

  lemma FieldsInKeyAndValue()
    ensures Process(map["p1" := "v1", "v1" := "5"], Single(SomeP1Key(), FromPattern([Field("v1")])))
         == [Send("some.v1.key", 5.0)]
  {
    var fields := map["p1" := "v1", "v1" := "5"];
    ResolveSomeP1Key(fields);
    assert "some." + "v1" + ".key" == "some.v1.key";
    ResolveField("v1", fields);
    ParsePlainNumberRoundTrip(5);
    ProcessSingle(fields, KeySpec(SomeP1Key(), FromPattern([Field("v1")]), 1.0, None));
  }

  lemma MultipleKeys()
    ensures Process(map["p1" := "v1"],
                    [KeySpec(SomeP1Key(), Constant(1.0), 1.0, None),
                     KeySpec([Lit("someother."), Field("p1"), Lit(".key")], Constant(2.0), 1.0, None)])
         == [Send("some.v1.key", 1.0), Send("someother.v1.key", 2.0)]
  {
    var fields := map["p1" := "v1"];
    var first := KeySpec(SomeP1Key(), Constant(1.0), 1.0, None);
    var other: Template := [Lit("someother."), Field("p1"), Lit(".key")];
    var second := KeySpec(other, Constant(2.0), 1.0, None);
    ResolveSomeP1Key(fields);
    assert "some." + "v1" + ".key" == "some.v1.key";
    ResolveLitFieldLit("someother.", "p1", ".key", fields);
    assert "someother." + "v1" + ".key" == "someother.v1.key";
    ProcessSingle(fields, first);
    ProcessSingle(fields, second);
    ProcessAppend(fields, [first], [second]);
    assert [first] + [second] == [first, second];
  }

  lemma Multiplier()
    ensures Process(map[], [KeySpec([Lit("key")], Constant(5.0), 10.0, None)]) == [Send("key", 50.0)]
  {
    ResolveLit("key", map[]);
    ProcessSingle(map[], KeySpec([Lit("key")], Constant(5.0), 10.0, None));
  }

  /** "1234567890" reads as 1234567890, one digit at a time. */
  lemma DigitsOfTimestamp()
    ensures ParseNat("1234567890") == Some(1234567890)
  {
    DigitsSnoc("", '1');
    assert "" + ['1'] == "1";
    DigitsSnoc("1", '2');
    assert "1" + ['2'] == "12";
    DigitsSnoc("12", '3');
    assert "12" + ['3'] == "123";
    DigitsSnoc("123", '4');
    assert "123" + ['4'] == "1234";
    DigitsSnoc("1234", '5');
    assert "1234" + ['5'] == "12345";
    DigitsSnoc("12345", '6');
    assert "12345" + ['6'] == "123456";
    DigitsSnoc("123456", '7');
    assert "123456" + ['7'] == "1234567";
    DigitsSnoc("1234567", '8');
    assert "1234567" + ['8'] == "12345678";
    DigitsSnoc("12345678", '9');
    assert "12345678" + ['9'] == "123456789";
    DigitsSnoc("123456789", '0');
    assert "123456789" + ['0'] == "1234567890";
    assert IsDigits("1234567890");
  }

  lemma CustomTimestamp()
    ensures Process(map["ts" := "1234567890"], [KeySpec([Lit("key")], Constant(5.0), 1.0, Some([Field("ts")]))])
         == [SendAt("key", 5.0, 1234567890)]
  {
    var fields := map["ts" := "1234567890"];
    ResolveLit("key", fields);
    ResolveField("ts", fields);
    DigitsOfTimestamp();
    ProcessSingle(fields, KeySpec([Lit("key")], Constant(5.0), 1.0, Some([Field("ts")])));
  }

  lemma ByteValue()
    ensures Process(map["v1" := "5M"], Single([Lit("key")], FromPattern([Field("v1")]))) == [Send("key", 5.0 * 1024.0 * 1024.0)]
  {
    var fields := map["v1" := "5M"];
    ResolveLit("key", fields);
    ResolveField("v1", fields);
    ParseNumberRoundTrip(5, 'M');
    assert NatToString(5) + ['M'] == "5M";
    ProcessSingle(fields, KeySpec([Lit("key")], FromPattern([Field("v1")]), 1.0, None));
  }

  lemma MissingKeyField()
    ensures Process(map["p2" := "key"], Single(SomeP1Key(), Constant(1.0))) == []
  {
  }

  lemma MissingValueField()
    ensures Process(map["v2" := "5M"], Single([Lit("key")], FromPattern([Field("v1")]))) == []
  {
  }

  // ------------------------------------------------- the processor's own schema

  const GraphiteClassName: string := "tv.ustream.yolo.module.processor.GraphiteProcessor"

  /** The Graphite processor: `host` is a required string. */
  function GraphiteClass(): ModuleClass {
    ProcessorClass(Some([("host", RequiredString())]),
                   (raw: RawConfig, debug: bool) => Success(Processor(GraphiteClassName, (keys: seq<string>, params: RawConfig) => None)))
  }

  /** A Graphite processor entry without a host is refused with a ConfigException naming `host`. */
  lemma HostRequired(registry: Registry, raw: RawConfig, debug: bool, isPattern: string -> bool)
    requires GraphiteClassName in registry && registry[GraphiteClassName] == GraphiteClass()
    requires Get(raw, "class") == Str(GraphiteClassName) && !isPattern(GraphiteClassName)
    requires Get(raw, "host") == Null
    ensures CreateProcessor(registry, "x", raw, debug, isPattern) == Failure(FieldInvalid("host"))
  {
    assert GraphiteClassName != "";
    assert InstanceOf(Get(raw, "class"), RequiredString().allowedTypes[0]);
    assert ParseValues(ProcessorBase()[1..], raw, isPattern) == None;
    assert ParseValues(ProcessorBase(), raw, isPattern).None?;
    assert ClassName(raw) == GraphiteClassName;
    assert ParseValues([("host", RequiredString())], raw, isPattern) == Some(FieldInvalid("host"));
  }
}
