/**
 * The configuration value validator: one field descriptor of a module's schema
 * (its type, whether it is required, its default, the values and types it accepts,
 * and whether a template string is acceptable), and the check that turns an
 * untyped configuration value into the field's value or a configuration error.
 */
module ConfigValues {
  import opened Wrappers

  /** An untyped configuration value as the JSON configuration decodes it. */
  datatype Value =
    | Null
    | Str(str: string)
    | Num(num: real)
    | Bool(flag: bool)
    | List(items: seq<Value>)
    | Map(entries: map<string, Value>)

  /** The Java classes a field can name as its type or as one of its allowed types. */
  datatype JavaType = StringType | NumberType | BooleanType | ListType | MapType | ObjectType

  /**
   * The errors of the startup path. All but ClassCast are ConfigExceptions;
   * ClassCast is the unchecked exception of a failed Java cast.
   */
  datatype ConfigError =
    | FieldInvalid(field: string)       // "<field> field is missing or invalid, value definition: ..."
    | ClassLoadFailed(className: string) // "failed to load class: <className>"
    | ProcessorMissing(parser: string)  // "Config error in <parser> parser: processor missing or does not exist"
    | ModuleRejected(reason: string)    // thrown by a module's own set-up or parameter check
    | ClassCast(what: string)

  /** null, "", an empty collection or an empty map; a number or a boolean is never empty. */
  predicate IsEmpty(v: Value): (b: bool)
    ensures v == Null ==> b
    ensures v.Num? || v.Bool? ==> !b
    ensures v.Str? ==> (b <==> |v.str| == 0)
    ensures v.List? ==> (b <==> |v.items| == 0)
    ensures v.Map? ==> (b <==> |v.entries| == 0)
  {
    v == Null || v == Str("") || v == List([]) || v == Map(map[])
  }

  /** Class.isInstance: null is an instance of nothing, every other value of Object. */
  predicate InstanceOf(v: Value, t: JavaType) {
    match t
    case StringType => v.Str?
    case NumberType => v.Num?
    case BooleanType => v.Bool?
    case ListType => v.List?
    case MapType => v.Map?
    case ObjectType => v != Null
  }

  /** What a ConfigValue holds. */
  datatype Rule = Rule(
    required: bool,
    defaultValue: Value,
    typ: JavaType,
    allowedValues: Option<seq<Value>>,
    allowedTypes: seq<JavaType>,
    patternAllowed: bool)

  /**
   * The type check: a template string is refused unless patterns are allowed,
   * otherwise the value must be an instance of some allowed type.
   * `isPattern` stands for ConfigPattern.applicable.
   */
  predicate TypeAllowed(rule: Rule, v: Value, isPattern: string -> bool) {
    && !(v.Str? && isPattern(v.str) && !rule.patternAllowed)
    && exists i :: 0 <= i < |rule.allowedTypes| && InstanceOf(v, rule.allowedTypes[i])
  }

  /** An unset list of allowed values admits everything. */
  predicate ValueAllowed(rule: Rule, v: Value) {
    rule.allowedValues.None? || v in rule.allowedValues.value
  }

  predicate ValueValid(rule: Rule, v: Value, isPattern: string -> bool) {
    if rule.required && IsEmpty(v) then false
    else if v == Null then true
    else TypeAllowed(rule, v, isPattern) && ValueAllowed(rule, v)
  }

  /**
   * The outcome of parsing `v` for the field `name`: an invalid value is a
   * ConfigException, an empty one gives the default, any other is returned
   * as it is once the cast to the declared type succeeds.
   */
  function Parsed(rule: Rule, name: string, v: Value, isPattern: string -> bool): (r: Result<Value, ConfigError>)
    ensures rule.required && IsEmpty(v) ==> r == Failure(FieldInvalid(name))
    ensures !rule.required && v == Null ==> r == Success(rule.defaultValue)
    ensures v != Null && !(TypeAllowed(rule, v, isPattern) && ValueAllowed(rule, v)) ==> r == Failure(FieldInvalid(name))
    ensures v.Str? && isPattern(v.str) && !rule.patternAllowed ==> r == Failure(FieldInvalid(name))
    ensures r.Success? && IsEmpty(v) ==> r.value == rule.defaultValue
    ensures r.Success? && !IsEmpty(v) ==> r.value == v && InstanceOf(v, rule.typ)
    ensures r.Failure? ==> r.error == FieldInvalid(name) || r.error == ClassCast(name)
    ensures r == Failure(ClassCast(name)) <==> ValueValid(rule, v, isPattern) && !IsEmpty(v) && !InstanceOf(v, rule.typ)
    ensures ValueValid(rule, v, isPattern) && IsEmpty(v) ==> r == Success(rule.defaultValue)
    ensures ValueValid(rule, v, isPattern) && !IsEmpty(v) && InstanceOf(v, rule.typ) ==> r == Success(v)
  {
    if !ValueValid(rule, v, isPattern) then Failure(FieldInvalid(name))
    else if IsEmpty(v) then Success(rule.defaultValue)
    else if InstanceOf(v, rule.typ) then Success(v)
    else Failure(ClassCast(name))
  }

  /**
   * Replacing the allowed types can drop the declared type: a String field whose
   * allowed types became [Number] refuses strings, and lets a number through the
   * check only for the cast to String to fail.
   */
  lemma ReplacedTypesDropDeclaredType(isPattern: string -> bool)
    ensures var rule := Rule(true, Null, StringType, None, [NumberType], false);
      && Parsed(rule, "f", Str("a"), isPattern) == Failure(FieldInvalid("f"))
      && Parsed(rule, "f", Num(5.0), isPattern) == Failure(ClassCast("f"))
  {
    var rule := Rule(true, Null, StringType, None, [NumberType], false);
    assert InstanceOf(Num(5.0), rule.allowedTypes[0]);
  }

  /** The mutable builder of a field descriptor. */
  class ConfigValue {
    const required: bool
    const defaultValue: Value
    const typ: JavaType
    var allowedValues: Option<seq<Value>>
    var allowedTypes: seq<JavaType>
    var configPatternAllowed: bool

    function State(): Rule
      reads this
    {
      Rule(required, defaultValue, typ, allowedValues, allowedTypes, configPatternAllowed)
    }

    /** A field of type `typ`; its own type is its only allowed type. */
    constructor (typ: JavaType, required: bool, defaultValue: Value)
      ensures State() == Rule(required, defaultValue, typ, None, [typ], false)
    {
      this.typ := typ;
      this.required := required;
      this.defaultValue := defaultValue;
      this.allowedValues := None;
      this.allowedTypes := [typ];
      this.configPatternAllowed := false;
    }

    /** A required field of type `typ` without a default. */
    constructor OfType(typ: JavaType)
      ensures State() == Rule(true, Null, typ, None, [typ], false)
    {
      this.typ := typ;
      this.required := true;
      this.defaultValue := Null;
      this.allowedValues := None;
      this.allowedTypes := [typ];
      this.configPatternAllowed := false;
    }

    static method CreateString() returns (c: ConfigValue)
      ensures fresh(c)
      ensures c.State() == Rule(true, Null, StringType, None, [StringType], false)
    {
      c := new ConfigValue.OfType(StringType);
    }

    method SetAllowedValues(values: Option<seq<Value>>) returns (self: ConfigValue)
      modifies this
      ensures self == this
      ensures State() == old(State()).(allowedValues := values)
    {
      allowedValues := values;
      self := this;
    }

    /** Replaces the allowed types entirely; the declared type is not kept. */
    method SetAllowedTypes(types: seq<JavaType>) returns (self: ConfigValue)
      modifies this
      ensures self == this
      ensures State() == old(State()).(allowedTypes := types)
    {
      allowedTypes := types;
      self := this;
    }

    method AllowConfigPattern() returns (self: ConfigValue)
      modifies this
      ensures self == this
      ensures State() == old(State()).(patternAllowed := true)
    {
      configPatternAllowed := true;
      self := this;
    }

    method IsTypeAllowed(v: Value, isPattern: string -> bool) returns (allowed: bool)
      ensures allowed == TypeAllowed(State(), v, isPattern)
    {
      if v.Str? && isPattern(v.str) && !configPatternAllowed {
        return false;
      }
      var i := 0;
      while i < |allowedTypes|
        invariant 0 <= i <= |allowedTypes|
        invariant forall j :: 0 <= j < i ==> !InstanceOf(v, allowedTypes[j])
      {
        if InstanceOf(v, allowedTypes[i]) {
          return true;
        }
        i := i + 1;
      }
      return false;
    }

    method IsValueValid(v: Value, isPattern: string -> bool) returns (valid: bool)
      ensures valid == ValueValid(State(), v, isPattern)
    {
      if required && IsEmpty(v) {
        return false;
      } else if v == Null {
        return true;
      }
      var typeOk := IsTypeAllowed(v, isPattern);
      valid := typeOk && (allowedValues.None? || v in allowedValues.value);
    }

    /** Parsing reads the descriptor and changes none of its fields. */
    method Parse(name: string, v: Value, isPattern: string -> bool) returns (r: Result<Value, ConfigError>)
      ensures r == Parsed(State(), name, v, isPattern)
    {
      var valid := IsValueValid(v, isPattern);
      if !valid {
        return Failure(FieldInvalid(name));
      }
      if IsEmpty(v) {
        r := Success(defaultValue);
      } else if InstanceOf(v, typ) {
        r := Success(v);
      } else {
        r := Failure(ClassCast(name));
      }
    }
  }
}
