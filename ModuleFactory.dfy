/**
 * The module factory: turns one named parser or processor entry of the
 * configuration into a set-up module. It validates the entry against the base
 * schema, finds the implementation registered under the entry's `class`,
 * validates the entry against that implementation's own schema, if it has one,
 * and hands the entry to the implementation's set-up hook.
 */
module ModuleFactory {
  import opened Wrappers
  import opened ConfigValues
  import opened Templates

  /** One module entry of the configuration: parameter name to untyped value. */
  type RawConfig = map<string, Value>

  /** A ConfigGroup: field names with their descriptors, checked in order. */
  type Schema = seq<(string, Rule)>

  /** Map.get: an absent key reads as null. */
  function Get(raw: RawConfig, key: string): Value {
    if key in raw then raw[key] else Null
  }

  /** A set-up parser: what it extracts from a line, whether it runs after a match, the fields it outputs. */
  datatype Parser = Parser(className: string, parse: string -> Option<FieldMap>, runAlways: bool, outputKeys: seq<string>)

  /** A set-up processor: its check of the parameters a parser binds to it. */
  datatype Processor = Processor(className: string, validateParams: (seq<string>, RawConfig) -> Option<ConfigError>)

  /**
   * A loadable implementation: its own schema (getModuleConfig, null when it has none)
   * and its set-up hook (setUpModule), which may refuse the entry.
   */
  datatype ModuleClass =
    | ParserClass(moduleConfig: Option<Schema>, setUpParser: (RawConfig, bool) -> Result<Parser, ConfigError>)
    | ProcessorClass(moduleConfig: Option<Schema>, setUpProcessor: (RawConfig, bool) -> Result<Processor, ConfigError>)

  /** The class names that can be loaded, with their implementations. */
  type Registry = map<string, ModuleClass>

  function RequiredString(): Rule {
    Rule(true, Null, StringType, None, [StringType], false)
  }

  /**
   * Every processor entry needs a `class` string. A base field accepts its declared
   * type only and refuses template strings.
   */
  function ProcessorBase(): (s: Schema)
    ensures |s| > 0 && s[0] == ("class", RequiredString())
    ensures forall i :: 0 <= i < |s| ==> s[i].1.allowedTypes == [s[i].1.typ] && !s[i].1.patternAllowed
  {
    [("class", RequiredString())]
  }

  /**
   * Every parser entry needs `class` and `processor` strings and may carry a
   * `processorParams` map: the processor base with two more fields after it.
   */
  function ParserBase(): (s: Schema)
    ensures |s| == 3 && s[..1] == ProcessorBase()
    ensures s[1] == ("processor", RequiredString())
    ensures s[2].0 == "processorParams" && !s[2].1.required && s[2].1.defaultValue == Null
    ensures forall i :: 0 <= i < |s| ==> s[i].1.allowedTypes == [s[i].1.typ] && !s[i].1.patternAllowed
  {
    [("class", RequiredString()),
     ("processor", RequiredString()),
     ("processorParams", Rule(false, Null, MapType, None, [MapType], false))]
  }

  /** ConfigGroup.parseValues: the error of the first field that does not parse, if any. */
  function ParseValues(schema: Schema, raw: RawConfig, isPattern: string -> bool): (r: Option<ConfigError>)
    ensures r.Some? ==> exists i :: 0 <= i < |schema| && (r.value == FieldInvalid(schema[i].0) || r.value == ClassCast(schema[i].0))
  {
    if schema == [] then None
    else
      match Parsed(schema[0].1, schema[0].0, Get(raw, schema[0].0), isPattern)
      case Failure(e) => Some(e)
      case Success(_) =>
        var rest := ParseValues(schema[1..], raw, isPattern);
        assert rest.Some? ==> exists i :: 1 <= i < |schema| && (rest.value == FieldInvalid(schema[i].0) || rest.value == ClassCast(schema[i].0)) by {
          if rest.Some? {
            var i :| 0 <= i < |schema[1..]| && (rest.value == FieldInvalid(schema[1..][i].0) || rest.value == ClassCast(schema[1..][i].0));
            assert schema[1..][i] == schema[i + 1];
          }
        }
        rest
  }

  /**
   * Validation is fail-fast: an entry passes exactly when every field parses,
   * and otherwise the error reported is that of the first field that does not.
   */
  lemma {:induction false} ParseValuesFirstFailure(schema: Schema, raw: RawConfig, isPattern: string -> bool)
    ensures ParseValues(schema, raw, isPattern).None? <==>
      forall i :: 0 <= i < |schema| ==> Parsed(schema[i].1, schema[i].0, Get(raw, schema[i].0), isPattern).Success?
    ensures ParseValues(schema, raw, isPattern).Some? ==>
      exists i :: 0 <= i < |schema| && FirstFailure(schema, raw, isPattern, i)
        && ParseValues(schema, raw, isPattern).value == Parsed(schema[i].1, schema[i].0, Get(raw, schema[i].0), isPattern).error
  {
    if schema != [] {
      var r := ParseValues(schema, raw, isPattern);
      if Parsed(schema[0].1, schema[0].0, Get(raw, schema[0].0), isPattern).Failure? {
        assert FirstFailure(schema, raw, isPattern, 0);
      } else {
        ParseValuesFirstFailure(schema[1..], raw, isPattern);
        assert forall i :: 1 <= i < |schema| ==> schema[i] == schema[1..][i - 1];
        if r.Some? {
          var i :| 0 <= i < |schema[1..]| && FirstFailure(schema[1..], raw, isPattern, i)
            && r.value == Parsed(schema[1..][i].1, schema[1..][i].0, Get(raw, schema[1..][i].0), isPattern).error;
          assert FirstFailure(schema, raw, isPattern, i + 1);
        }
      }
    }
  }

  /** Field `i` is the first of the schema whose value does not parse. */
  ghost predicate FirstFailure(schema: Schema, raw: RawConfig, isPattern: string -> bool, i: int)
    requires 0 <= i < |schema|
  {
    && Parsed(schema[i].1, schema[i].0, Get(raw, schema[i].0), isPattern).Failure?
    && forall j :: 0 <= j < i ==> Parsed(schema[j].1, schema[j].0, Get(raw, schema[j].0), isPattern).Success?
  }

  /** Class.forName(className).newInstance(): a registry lookup. */
  function Create(registry: Registry, className: string): (r: Result<ModuleClass, ConfigError>)
    ensures r.Success? <==> className in registry
    ensures r.Success? ==> r.value == registry[className]
    ensures r.Failure? ==> r.error == ClassLoadFailed(className)
  {
    if className in registry then Success(registry[className]) else Failure(ClassLoadFailed(className))
  }

  /** The module's own schema, when it has one, is checked before its set-up hook runs. */
  function SetupModule<M>(moduleConfig: Option<Schema>, setUp: (RawConfig, bool) -> Result<M, ConfigError>,
                          raw: RawConfig, debug: bool, isPattern: string -> bool): (r: Result<M, ConfigError>)
    ensures moduleConfig.Some? && ParseValues(moduleConfig.value, raw, isPattern).Some? ==>
      r == Failure(ParseValues(moduleConfig.value, raw, isPattern).value)
    ensures moduleConfig.None? || ParseValues(moduleConfig.value, raw, isPattern).None? ==>
      r == setUp(raw, debug)
  {
    if moduleConfig.Some? && ParseValues(moduleConfig.value, raw, isPattern).Some? then
      Failure(ParseValues(moduleConfig.value, raw, isPattern).value)
    else
      setUp(raw, debug)
  }

  /** The `class` entry as the cast `(String) rawConfig.get("class")` reads it. */
  function ClassName(raw: RawConfig): string {
    match Get(raw, "class")
    case Str(s) => s
    case _ => ""
  }

  /** An entry that passes a schema requiring `class` has a non-empty `class` string. */
  lemma BaseGivesClassName(schema: Schema, raw: RawConfig, isPattern: string -> bool)
    requires |schema| > 0 && schema[0] == ("class", RequiredString())
    requires ParseValues(schema, raw, isPattern).None?
    ensures Get(raw, "class").Str? && ClassName(raw) != ""
  {
  }

  function CreateProcessor(registry: Registry, name: string, raw: RawConfig, debug: bool, isPattern: string -> bool): (r: Result<Processor, ConfigError>)
    ensures ParseValues(ProcessorBase(), raw, isPattern).Some? ==> r == Failure(ParseValues(ProcessorBase(), raw, isPattern).value)
    ensures ParseValues(ProcessorBase(), raw, isPattern).None? && ClassName(raw) !in registry ==> r == Failure(ClassLoadFailed(ClassName(raw)))
    ensures r.Success? ==> && ParseValues(ProcessorBase(), raw, isPattern).None?
                           && ClassName(raw) in registry && registry[ClassName(raw)].ProcessorClass?
                           && r == SetupModule(registry[ClassName(raw)].moduleConfig, registry[ClassName(raw)].setUpProcessor, raw, debug, isPattern)
    ensures ParseValues(ProcessorBase(), raw, isPattern).None? && ClassName(raw) in registry ==>
      r == (if registry[ClassName(raw)].ProcessorClass?
            then SetupModule(registry[ClassName(raw)].moduleConfig, registry[ClassName(raw)].setUpProcessor, raw, debug, isPattern)
            else Failure(ClassCast(ClassName(raw))))
  {
    match ParseValues(ProcessorBase(), raw, isPattern)
    case Some(e) => Failure(e)
    case None =>
      var className := ClassName(raw);
      match Create(registry, className)
      case Failure(e) => Failure(e)
      case Success(cls) =>
        if cls.ProcessorClass? then SetupModule(cls.moduleConfig, cls.setUpProcessor, raw, debug, isPattern)
        else Failure(ClassCast(className))
  }

  function CreateParser(registry: Registry, name: string, raw: RawConfig, debug: bool, isPattern: string -> bool): (r: Result<Parser, ConfigError>)
    ensures ParseValues(ParserBase(), raw, isPattern).Some? ==> r == Failure(ParseValues(ParserBase(), raw, isPattern).value)
    ensures ParseValues(ParserBase(), raw, isPattern).None? && ClassName(raw) !in registry ==> r == Failure(ClassLoadFailed(ClassName(raw)))
    ensures r.Success? ==> && ParseValues(ParserBase(), raw, isPattern).None?
                           && ClassName(raw) in registry && registry[ClassName(raw)].ParserClass?
                           && r == SetupModule(registry[ClassName(raw)].moduleConfig, registry[ClassName(raw)].setUpParser, raw, debug, isPattern)
    ensures ParseValues(ParserBase(), raw, isPattern).None? && ClassName(raw) in registry ==>
      r == (if registry[ClassName(raw)].ParserClass?
            then SetupModule(registry[ClassName(raw)].moduleConfig, registry[ClassName(raw)].setUpParser, raw, debug, isPattern)
            else Failure(ClassCast(ClassName(raw))))
  {
    match ParseValues(ParserBase(), raw, isPattern)
    case Some(e) => Failure(e)
    case None =>
      var className := ClassName(raw);
      match Create(registry, className)
      case Failure(e) => Failure(e)
      case Success(cls) =>
        if cls.ParserClass? then SetupModule(cls.moduleConfig, cls.setUpParser, raw, debug, isPattern)
        else Failure(ClassCast(className))
  }

  /**
   * A processor entry without a usable `class` string fails on the base schema,
   * whatever is registered: nothing is loaded and no set-up hook runs.
   */
  lemma ProcessorNeedsClass(registry: Registry, name: string, raw: RawConfig, debug: bool, isPattern: string -> bool)
    requires IsEmpty(Get(raw, "class")) || !Get(raw, "class").Str? || (isPattern(Get(raw, "class").str))
    ensures CreateProcessor(registry, name, raw, debug, isPattern) == Failure(FieldInvalid("class"))
  {
  }

  /**
   * A created parser's entry has usable `class` and `processor` strings, and its
   * `processorParams` is absent or a map.
   */
  lemma ParserBaseFields(registry: Registry, name: string, raw: RawConfig, debug: bool, isPattern: string -> bool)
    ensures var r := CreateParser(registry, name, raw, debug, isPattern);
      r.Success? ==> && Get(raw, "class").Str? && Get(raw, "class") != Str("")
                     && Get(raw, "processor").Str? && Get(raw, "processor") != Str("")
                     && (Get(raw, "processorParams") == Null || Get(raw, "processorParams").Map?)
  {
    var r := CreateParser(registry, name, raw, debug, isPattern);
    if r.Success? {
      var base := ParserBase();
      ParseValuesFirstFailure(base, raw, isPattern);
      assert Parsed(base[0].1, base[0].0, Get(raw, base[0].0), isPattern).Success?;
      assert Parsed(base[1].1, base[1].0, Get(raw, base[1].0), isPattern).Success?;
      assert Parsed(base[2].1, base[2].0, Get(raw, base[2].0), isPattern).Success?;
    }
  }

  /** A valid value of a base field, checked by a rule that accepts only its declared type, parses. */
  lemma ValidBaseFieldParses(rule: Rule, name: string, v: Value, isPattern: string -> bool)
    requires rule.allowedTypes == [rule.typ]
    requires ValueValid(rule, v, isPattern)
    ensures Parsed(rule, name, v, isPattern).Success?
  {
    if !IsEmpty(v) && v != Null {
      var i :| 0 <= i < |rule.allowedTypes| && InstanceOf(v, rule.allowedTypes[i]);
    }
  }

  /** The base schema reports the first unusable field, in the order class, processor, processorParams. */
  lemma ParserBaseReportsFirst(registry: Registry, name: string, raw: RawConfig, debug: bool, isPattern: string -> bool)
    ensures !ValueValid(RequiredString(), Get(raw, "class"), isPattern) ==>
      CreateParser(registry, name, raw, debug, isPattern) == Failure(FieldInvalid("class"))
    ensures (ValueValid(RequiredString(), Get(raw, "class"), isPattern)
             && !ValueValid(RequiredString(), Get(raw, "processor"), isPattern)) ==>
      CreateParser(registry, name, raw, debug, isPattern) == Failure(FieldInvalid("processor"))
    ensures (&& ValueValid(RequiredString(), Get(raw, "class"), isPattern)
             && ValueValid(RequiredString(), Get(raw, "processor"), isPattern)
             && !ValueValid(ParserBase()[2].1, Get(raw, "processorParams"), isPattern)) ==>
      CreateParser(registry, name, raw, debug, isPattern) == Failure(FieldInvalid("processorParams"))
  {
    var base := ParserBase();
    assert base[1..][1..] == [base[2]];
    assert [base[2]][1..] == [];
    if ValueValid(RequiredString(), Get(raw, "class"), isPattern) {
      ValidBaseFieldParses(base[0].1, "class", Get(raw, "class"), isPattern);
      assert ParseValues(base, raw, isPattern) == ParseValues(base[1..], raw, isPattern);
      if ValueValid(RequiredString(), Get(raw, "processor"), isPattern) {
        ValidBaseFieldParses(base[1].1, "processor", Get(raw, "processor"), isPattern);
        assert ParseValues(base[1..], raw, isPattern) == ParseValues(base[1..][1..], raw, isPattern);
      }
    }
  }

  /** On success, the module is the one the set-up hook of the class named by `class` made from the very same entry and debug flag. */
  lemma CreatedFromNamedClass(registry: Registry, name: string, raw: RawConfig, debug: bool, isPattern: string -> bool)
    requires CreateProcessor(registry, name, raw, debug, isPattern).Success?
    ensures var cls := registry[ClassName(raw)];
      && cls.ProcessorClass?
      && CreateProcessor(registry, name, raw, debug, isPattern) == cls.setUpProcessor(raw, debug)
      && (cls.moduleConfig.Some? ==> ParseValues(cls.moduleConfig.value, raw, isPattern).None?)
  {
  }
}
