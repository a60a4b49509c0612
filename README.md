# Loggy startup and dispatch, modelled in Dafny

Loggy tails a log file. It turns each new line into fields with configurable
parsers and hands the fields to configurable processors, such as a console
printer or a Graphite/StatsD metric sender. This project models four parts of
that system and proves properties of them:

- **The configuration value validator** (`ConfigValues`). A field descriptor has
  a declared Java type, a required flag, a default, an optional list of allowed
  values, a list of allowed types and a "template strings allowed" flag. Parsing
  validates one untyped JSON value against the descriptor. The result is the
  value, the default, or an error. `ConfigValue` is the mutable builder class,
  with its three setters. `Parsed` is the pure function its `Parse` method is
  proved against.
- **The module factory** (`ModuleFactory`). A parser or processor entry of the
  configuration is checked in a fixed order:
  1. the fixed base schema;
  2. the registry lookup of its `class` (Java reflection becomes a finite map);
  3. the implementation's own schema, if it has one;
  4. the implementation's set-up hook.
- **The dispatcher** (`Handler`). `DataHandler` is a class holding four maps:
  parsers, processors, per-parser processor parameters, and parser→processor
  transitions. `AddProcessor` and `AddParser` fill the maps. `Handle` runs one
  line through the parsers: once a parser has matched, only "run always" parsers
  are still asked, and each match is forwarded to the bound processor. `Run` is
  the pure specification of `Handle`.
- **Graphite metric resolution** (`Templates`, `Graphite`). `Process` lists the
  `sendMetrics` calls the Graphite processor's `process` makes. Its input is a
  parser's fields and the processor's key specifications. Key templates `#field#`
  are substituted. Values are read from fields, with a `K`/`M`/`G` byte suffix.
  The multiplier is applied, and an optional timestamp template is resolved. A
  specification that names a missing field sends nothing. The behaviour comes
  from `GraphiteProcessorTest`; each test case is a lemma.

Interfaces to code outside the model are parameters:

- `ConfigPattern.applicable` is an uninterpreted predicate `isPattern: string -> bool`.
- `ConfigPattern.processMap` is a function `processMap` given to the `DataHandler`.
- A module implementation is a value. It carries its own schema and its set-up
  hook. The hook returns a parser or a processor, or refuses the entry.
- A parser is `parse: string -> Option<FieldMap>`, plus `runAlways` and its
  output keys.
- A processor is its `validateProcessorParams` check.
- `process` calls are not performed: `Handle` returns them as values.

Three points where the model follows the code closely:

- Parser order. `DataHandler.handle` iterates `HashMap.keySet()`
  (DataHandler.java:81), whose order is unrelated to insertion. `Handle` therefore
  takes the iteration order as a parameter, which may be any enumeration of the
  parser names, and every lemma holds for every such order.
- Set-up input. `setupModule` hands the module's set-up hook the original raw entry
  (`setUpModule(rawConfig, debug)`, ModuleFactory.java:73), not the values its schema
  parsed. `SetupModule` does the same.
- Factory signature. `DataHandler` calls a three-argument
  `moduleFactory.create(class, config, debug)` (DataHandler.java:40, 51), which the
  factory in the same package does not have; its `create` takes only the class name
  (ModuleFactory.java:52-63). The model connects `AddProcessor`/`AddParser` to the
  factory's `createProcessor`/`createParser`, which take the same entry and debug
  flag. `GraphiteProcessorTest` uses another factory: the two-argument
  `createProcessor("x", config)` of `tv.ustream.yolo.module.ModuleFactory`
  (GraphiteProcessorTest.java:11, 227), which is not part of this model.
  `Graphite.HostRequired` goes through the modelled three-argument `CreateProcessor`
  instead, and assumes the other factory checks in the same order.

Numbers are Dafny `real`s. The test values are exact: 5, 50, 5·1024², 1234567890.

## Model

| member | source | states |
|---|---|---|
| `ConfigValues.Parsed` | src/main/java/tv/ustream/yolo/config/ConfigValue.java:60-107 | A required field with a null, "", empty-list or empty-map value fails with a ConfigException naming the field. On an optional field a null value gives the default, even when allowed values are set. A non-null value must pass the type check and the allowed-values check. A template string is refused unless patterns are allowed. A valid empty value gives the default. A valid non-empty value that is an instance of the declared type is returned unchanged. A valid non-empty value that is not fails the cast. |
| `ConfigValues.IsEmpty` | src/main/java/tv/ustream/yolo/config/ConfigValue.java:72-93 | Null, the empty string, an empty list and an empty map are empty. A non-empty string, list or map is not, and a number or a boolean never is. |
| `ConfigValues.ReplacedTypesDropDeclaredType` | src/main/java/tv/ustream/yolo/config/ConfigValue.java:46-69 | Once the allowed types are replaced, the declared type may be gone. A String field whose allowed types are [Number] refuses strings. It lets a number pass validation, and then the cast to String fails. |
| `ConfigValues.ConfigValue.constructor` | src/main/java/tv/ustream/yolo/config/ConfigValue.java:31-37 | Sets type, required flag and default. The declared type is the only allowed type. No allowed values are set, and patterns are not allowed. |
| `ConfigValues.ConfigValue.OfType` | src/main/java/tv/ustream/yolo/config/ConfigValue.java:26-29 | The one-argument constructor: required, with a null default. |
| `ConfigValues.ConfigValue.CreateString` | src/main/java/tv/ustream/yolo/config/ConfigValue.java:143-146 | A fresh required String descriptor. |
| `ConfigValues.ConfigValue.SetAllowedValues` | src/main/java/tv/ustream/yolo/config/ConfigValue.java:39-44 | Replaces the allowed values, changes no other field, and returns the same object. |
| `ConfigValues.ConfigValue.SetAllowedTypes` | src/main/java/tv/ustream/yolo/config/ConfigValue.java:46-51 | Replaces the allowed-type list entirely, changes no other field, and returns the same object. |
| `ConfigValues.ConfigValue.AllowConfigPattern` | src/main/java/tv/ustream/yolo/config/ConfigValue.java:53-58 | Sets only the pattern flag, and returns the same object. |
| `ConfigValues.ConfigValue.IsTypeAllowed` | src/main/java/tv/ustream/yolo/config/ConfigValue.java:109-123 | The early-return loop answers true exactly when the value is not a refused template string and is an instance of at least one allowed type. |
| `ConfigValues.ConfigValue.IsValueValid` | src/main/java/tv/ustream/yolo/config/ConfigValue.java:95-107 | A required empty value is invalid. Otherwise null is valid. Any other value is valid exactly when it passes the type check and is among the allowed values, if those are set. |
| `ConfigValues.ConfigValue.Parse` | src/main/java/tv/ustream/yolo/config/ConfigValue.java:60-70 | Returns exactly what `Parsed` gives for the descriptor's current fields. It has no modifies clause, so parsing changes no field. |
| `Templates.Resolve` | src/test/java/tv/ustream/yolo/module/processor/GraphiteProcessorTest.java:168-192 | A template that does not resolve names a field the line lacks. |
| `Templates.ResolveDefinedIff` | src/test/java/tv/ustream/yolo/module/processor/GraphiteProcessorTest.java:168-192 | A template resolves exactly when every field it names is present. |
| `Templates.ResolveLiteral` | src/test/java/tv/ustream/yolo/module/processor/GraphiteProcessorTest.java:55-63 | A template without placeholders resolves to its own text, whatever the fields. |
| `Templates.ResolveAppend` | src/test/java/tv/ustream/yolo/module/processor/GraphiteProcessorTest.java:65-76 | Substitution works piece by piece. A template split in two resolves to the concatenation of the two parts' resolutions. |
| `Templates.ResolveField` | src/test/java/tv/ustream/yolo/module/processor/GraphiteProcessorTest.java:78-89 | `#v#` resolves to the value of field `v`. |
| `Templates.ParseNatRoundTrip` | src/test/java/tv/ustream/yolo/module/processor/GraphiteProcessorTest.java:144-153 | Reading the decimal rendering of any natural number gives back that number. |
| `Templates.ParseNumber` | src/test/java/tv/ustream/yolo/module/processor/GraphiteProcessorTest.java:78-89 | A plain digit string reads as its decimal value. Every value read is non-negative. |
| `Templates.ParseNumberRoundTrip` | src/test/java/tv/ustream/yolo/module/processor/GraphiteProcessorTest.java:155-166 | A rendered number followed by `K`, `M` or `G` (either case) reads as the number times 1024, 1024² or 1024³. |
| `Templates.ParsePlainNumberRoundTrip` | src/test/java/tv/ustream/yolo/module/processor/GraphiteProcessorTest.java:78-89 | A rendered number without a suffix reads as itself. |
| `ModuleFactory.ProcessorBase` | src/main/java/com/ustream/loggy/module/ModuleFactory.java:36-41 | The processor base schema starts with the required `class` string. Each of its fields accepts only its declared type and refuses template strings. |
| `ModuleFactory.ParserBase` | src/main/java/com/ustream/loggy/module/ModuleFactory.java:43-50 | The parser base schema is the processor base followed by a required `processor` string and an optional `processorParams` with a null default. Each field accepts only its declared type and refuses template strings. |
| `ModuleFactory.ParseValues` | src/main/java/com/ustream/loggy/module/ModuleFactory.java:78 | A validation error always names one of the schema's fields. |
| `ModuleFactory.ParseValuesFirstFailure` | src/main/java/com/ustream/loggy/module/ModuleFactory.java:78 | Schema validation passes exactly when every field parses. Otherwise it reports the error of the first field, in schema order, that does not parse. |
| `ModuleFactory.Create` | src/main/java/com/ustream/loggy/module/ModuleFactory.java:52-63 | It succeeds exactly for a registered class name and gives that class. An unknown name fails with "failed to load class" carrying the name. |
| `ModuleFactory.SetupModule` | src/main/java/com/ustream/loggy/module/ModuleFactory.java:65-74 | The module's own schema is checked only when there is one, and before the set-up hook. If that check fails the hook has no effect on the result. Otherwise the result is the hook applied to the raw entry and the debug flag. |
| `ModuleFactory.BaseGivesClassName` | src/main/java/com/ustream/loggy/module/ModuleFactory.java:36-41 | An entry that passes a schema starting with the required `class` field has a non-empty `class` string. |
| `ModuleFactory.CreateProcessor` | src/main/java/com/ustream/loggy/module/ModuleFactory.java:76-85 | A base-schema failure is the result, whatever the registry holds. An unknown class name after the base check gives "failed to load class". After the base check, a registered processor class gives exactly its set-up on the same entry and debug flag, and a registered parser class fails the cast. Success happens only this way. |
| `ModuleFactory.CreateParser` | src/main/java/com/ustream/loggy/module/ModuleFactory.java:87-96 | The same order of checks as `CreateProcessor`, with the parser base schema. After the base check, a registered parser class gives exactly its set-up, and a processor class fails the cast. |
| `ModuleFactory.ProcessorNeedsClass` | src/main/java/com/ustream/loggy/module/ModuleFactory.java:36-41 | A processor entry whose `class` is missing, empty, not a string, or a template string fails on the base schema naming `class`. No class is loaded and no hook runs. |
| `ModuleFactory.ParserBaseFields` | src/main/java/com/ustream/loggy/module/ModuleFactory.java:43-50 | A created parser's entry has non-empty `class` and `processor` strings. Its `processorParams` is absent/null or a map. |
| `ModuleFactory.ValidBaseFieldParses` | src/main/java/tv/ustream/yolo/config/ConfigValue.java:60-69 | A field whose only allowed type is its declared type never fails the cast: a value that passes validation parses. |
| `ModuleFactory.ParserBaseReportsFirst` | src/main/java/com/ustream/loggy/module/ModuleFactory.java:87-89 | A parser entry with an unusable `class` fails naming `class`. With a usable `class` but an unusable `processor`, it fails naming `processor`. With both usable but a `processorParams` that is not a map, it fails naming `processorParams`. In each case this happens whatever the registry holds. |
| `ModuleFactory.CreatedFromNamedClass` | src/main/java/com/ustream/loggy/module/ModuleFactory.java:76-85 | A created processor is what the set-up hook of the class named by `class` returned for the original entry and debug flag. That class's own schema, if any, was passed first. |
| `Handler.Run` | src/main/java/com/ustream/loggy/handler/DataHandler.java:78-93 | After n parsers of the iteration, at most n parsers have been asked, and there are no more process calls than parsers asked. |
| `Handler.RunInvokedDistinct` | src/main/java/com/ustream/loggy/handler/DataHandler.java:81-85 | Over an iteration without repeated names, as a key set gives, no parser is asked twice, and every parser asked is one of the first n of the iteration. |
| `Handler.RunMatchedFlag` | src/main/java/com/ustream/loggy/handler/DataHandler.java:80-88 | After any number of parsers, the `match` flag is true exactly when one of them matched the line. So it never goes from true back to false. |
| `Handler.InvokedIff` | src/main/java/com/ustream/loggy/handler/DataHandler.java:82-84 | A parser is asked exactly when no earlier parser in the iteration matched, or it runs always. |
| `Handler.CallsStep` | src/main/java/com/ustream/loggy/handler/DataHandler.java:84-90 | In a fully bound pipeline, a parser that is asked and matches adds exactly one process call. The call goes to its bound processor, with its fields and its stored parameters. Any other parser adds no call. |
| `Handler.NoMatchNoCalls` | src/main/java/com/ustream/loggy/handler/DataHandler.java:78-93 | A line that no parser matches is offered to every parser and produces zero process calls. |
| `Handler.CallsComeFromMatches` | src/main/java/com/ustream/loggy/handler/DataHandler.java:85-90 | Every process call comes from a parser that matched, and goes to that parser's transition target with its fields and parameters. |
| `Handler.WiredNeverAborts` | src/main/java/com/ustream/loggy/handler/DataHandler.java:88-90 | When every parser is bound to an existing processor, the processor lookup never yields null. |
| `Handler.FirstMatchIsFirstCall` | src/main/java/com/ustream/loggy/handler/DataHandler.java:80-90 | The first parser that matches is always asked, and its call is the first call made. |
| `Handler.AlwaysRunAfterMatch` | src/main/java/com/ustream/loggy/handler/DataHandler.java:80-90 | Take a normal parser followed by a run-always parser. If both match, both bound processors get a call, in that order. If neither matches, no call is made. |
| `Handler.AlwaysRunFirstSkipsNormal` | src/main/java/com/ustream/loggy/handler/DataHandler.java:80-90 | The same two parsers in the reverse iteration order: once the run-always parser has matched, the normal parser is never asked, and only one call is made. So the outcome depends on the key-set order. |
| `Handler.DataHandler.constructor` | src/main/java/com/ustream/loggy/handler/DataHandler.java:23-35 | Four empty maps, which trivially satisfy the invariant. |
| `Handler.DataHandler.AddProcessor` | src/main/java/com/ustream/loggy/handler/DataHandler.java:37-46 | On success the created processor is stored under `name`, replacing any earlier one. On failure the processors map is unchanged. No other map changes, and the invariant is kept. |
| `Handler.DataHandler.AddParser` | src/main/java/com/ustream/loggy/handler/DataHandler.java:48-76 | A factory failure changes nothing. Otherwise the parser is stored. A missing or unknown `processor` then fails with the "processor missing or does not exist" error and leaves no transition, though the parser stays stored. Parameters are stored, and the processor's parameter check runs, only when the entry has `processorParams`. The transition is recorded only on success. Every transition target stays a registered processor. |
| `Handler.DataHandler.Handle` | src/main/java/com/ustream/loggy/handler/DataHandler.java:78-93 | The parsers asked, the process calls made, and whether a null processor lookup aborted the loop, all as `Run` specifies, for any enumeration of the parser names. The four maps are not changed. |
| `Graphite.Emit` | src/test/java/tv/ustream/yolo/module/processor/GraphiteProcessorTest.java:202-217 | A metric sent for one key specification has the resolved key and the resolved value times the multiplier. It carries a timestamp exactly when the specification has a timestamp template. |
| `Graphite.EmitSkipsMissingField` | src/test/java/tv/ustream/yolo/module/processor/GraphiteProcessorTest.java:168-192 | A specification whose key, value or timestamp template names a field the line lacks sends nothing. |
| `Graphite.EmitAppliesWhenResolved` | src/test/java/tv/ustream/yolo/module/processor/GraphiteProcessorTest.java:144-153 | A specification whose placeholders are all present, and whose value and timestamp read as numbers, sends one metric. When a timestamp template is set, the metric carries the timestamp read from it. |
| `Graphite.Process` | src/test/java/tv/ustream/yolo/module/processor/GraphiteProcessorTest.java:106-132 | There are never more sends than key specifications. |
| `Graphite.ProcessAppend` | src/test/java/tv/ustream/yolo/module/processor/GraphiteProcessorTest.java:106-132 | Key specifications are independent. The sends for a list are the sends for its first part followed by those for the rest. |
| `Graphite.ProcessAllApply` | src/test/java/tv/ustream/yolo/module/processor/GraphiteProcessorTest.java:106-132 | When every specification applies, there is exactly one send per specification, in order, each with its own key and value. |
| `Graphite.ProcessNoneApply` | src/test/java/tv/ustream/yolo/module/processor/GraphiteProcessorTest.java:168-192 | When no specification applies, nothing is sent. |
| `Graphite.LiteralKeyAndValue` | src/test/java/tv/ustream/yolo/module/processor/GraphiteProcessorTest.java:55-63 | Key "key" with value 5 sends exactly sendMetrics("key", 5). |
| `Graphite.FieldInKey` | src/test/java/tv/ustream/yolo/module/processor/GraphiteProcessorTest.java:65-76 | `some.#p1#.key` with p1=v1 sends "some.v1.key". |
| `Graphite.ValueFromField` | src/test/java/tv/ustream/yolo/module/processor/GraphiteProcessorTest.java:78-89 | Value `#v1#` with v1="5" sends 5. |
| `Graphite.FieldsInKeyAndValue` | src/test/java/tv/ustream/yolo/module/processor/GraphiteProcessorTest.java:91-104 | A templated key and a templated value together send ("some.v1.key", 5). |
| `Graphite.MultipleKeys` | src/test/java/tv/ustream/yolo/module/processor/GraphiteProcessorTest.java:106-132 | Two key specifications send ("some.v1.key", 1) and then ("someother.v1.key", 2). |
| `Graphite.Multiplier` | src/test/java/tv/ustream/yolo/module/processor/GraphiteProcessorTest.java:134-142 | Value 5 with multiplier 10 sends 50. |
| `Graphite.CustomTimestamp` | src/test/java/tv/ustream/yolo/module/processor/GraphiteProcessorTest.java:144-153 | Timestamp template `#ts#` with ts="1234567890" sends the three-argument ("key", 5, 1234567890). |
| `Graphite.ByteValue` | src/test/java/tv/ustream/yolo/module/processor/GraphiteProcessorTest.java:155-166 | Value "5M" sends 5·1024·1024. |
| `Graphite.MissingKeyField` | src/test/java/tv/ustream/yolo/module/processor/GraphiteProcessorTest.java:168-179 | A key placeholder whose field is absent sends nothing. |
| `Graphite.MissingValueField` | src/test/java/tv/ustream/yolo/module/processor/GraphiteProcessorTest.java:181-192 | A value placeholder whose field is absent sends nothing. |
| `Graphite.HostRequired` | src/test/java/tv/ustream/yolo/module/processor/GraphiteProcessorTest.java:47-53 | Creating a Graphite processor whose entry has a null `host` fails with a ConfigException naming `host`. |

## Left out

- Command-line handling, loading the configuration file, `System.exit` and usage text
  (both `Loggy.java` files). These are I/O glue. The processors and parsers maps they
  pass in are given as plain maps.
- `IProcessor` is only the shape of the processor value (`validateProcessorParams`,
  `process`). What a processor does inside `process` is not modelled; `Handle` returns
  the calls it makes instead of performing them.
- `ModuleFactory.printAvailableModules`, the available-module lists and
  `ConfigValue.getDescription` are console output. The field error therefore names the
  field but does not carry the descriptor's text.
- Java reflection is a finite registry map. A class that exists but is not a module
  (a `ClassCastException` inside `create`) is treated like an unknown class name.
- `ConfigGroup` is not part of this model. Its `parseValues` is modelled as checking the
  fields in schema order and stopping at the first failure, passing each field its own
  name. How the group prefixes the module name to the message is not modelled.
- `com.ustream.loggy.config.ConfigGroup` and that package's `ConfigValue` are not part
  of this model. The factory's schema fields are assumed to follow the rules of
  `tv.ustream.yolo.config.ConfigValue`, including its refusal of template strings.
  `ModuleFactory.ProcessorNeedsClass` rests on that assumption where it speaks of a
  template `class` string.
- `ConfigPattern` is not part of this model. `applicable` and `processMap` are parameters.
  Templates are given already split into literal and placeholder segments; reading the
  `#field#` text syntax into segments is not modelled.
- `ConfigUtils.castObjectMap`: entries are given as maps. A `processorParams` value that
  is neither absent nor a map is read as absent; the base schema rules it out anyway.
- `ConfigValues.ConfigValue.SetAllowedValues` and `ConfigValues.ConfigValue.SetAllowedTypes`
  take values. The Java setters keep the caller's list itself, so a later change to that
  list changes the descriptor; that aliasing is not modelled. A null `types` list, which
  makes `isTypeAllowed` throw a NullPointerException, cannot be expressed.
- Debug printing in `addProcessor`/`addParser`.
- The file tailer (`FileHandler`) is not part of this model, nor are exceptions raised
  inside a parser's `parse` or a processor's `process`. The one exception `handle`
  itself can raise is modelled: a null processor lookup after a failed `addParser`.
- The Graphite client: network sending, the flush timer, `stop()`, and the current time
  that the two-argument send uses. The `type` entry of a key specification (gauge,
  timer) is not modelled, since the Graphite processor does not use it.
- Graphite processor schema: only `host` is modelled (required string). The schema
  rules for `port`, `flushTimeMs` and `prefix` are not part of this model.
- The configuration value type: numbers are one type. Java's Integer/Double distinction
  is not modelled.
- `Templates.ParseNumber`: reads only unsigned decimal integers with an optional
  `K`/`M`/`G` suffix. The signs, fractions and exponents that `Double.parseDouble`
  accepts are not modelled, and values are exact reals rather than doubles. The source
  that coerces values is not part of this model; only the `M` suffix is fixed by a test,
  and `K` and `G`, and the lower-case forms of all three, are assumed by analogy with it.
- `Graphite.Emit`: a value or timestamp that does not read as a number, and a timestamp
  template naming a missing field, are taken to skip the specification, like any
  unresolved template. The GraphiteProcessor source is not part of this model and no
  test fixes these cases.
