/**
 * The dispatcher: named parsers and processors built from the configuration,
 * the processor each parser is bound to (its transition) and the processor
 * parameters each parser passes along. For every line, parsers are tried in the
 * order their names are enumerated; once one has matched, only parsers marked
 * "run always" are still tried, and every match is forwarded to the bound processor.
 */
module Handler {
  import opened Wrappers
  import opened ConfigValues
  import opened Templates
  import opened ModuleFactory

  /** One call `processor.process(fields, params)`. */
  datatype ProcessCall = ProcessCall(processor: string, fields: FieldMap, params: Option<RawConfig>)

  /** The four maps of a dispatcher. */
  datatype Pipeline = Pipeline(
    parsers: map<string, Parser>,
    processorParams: map<string, RawConfig>,
    processors: map<string, Processor>,
    transitions: map<string, string>)
  {
    /** Everything the maps refer to exists: bound and parameterised parsers are registered, and so are transition targets. */
    ghost predicate Consistent() {
      && transitions.Keys <= parsers.Keys
      && processorParams.Keys <= parsers.Keys
      && transitions.Values <= processors.Keys
    }

    /** Every registered parser is bound, as after a startup in which every addParser succeeded. */
    ghost predicate Wired() {
      Consistent() && parsers.Keys == transitions.Keys
    }
  }

  /** `order` lists each key of `keys` exactly once, as an iteration over a key set does. */
  ghost predicate Enumerates(order: seq<string>, keys: set<string>) {
    && (forall i :: 0 <= i < |order| ==> order[i] in keys)
    && (forall k :: k in keys ==> k in order)
    && (forall i, j :: 0 <= i < j < |order| ==> order[i] != order[j])
  }

  /** The effect of handling one line after the first n parsers of the iteration. */
  datatype Dispatched = Dispatched(
    matched: bool,             // the `match` flag
    invoked: seq<string>,      // parsers whose parse was called, in order
    calls: seq<ProcessCall>,   // the process calls made, in order
    aborted: bool)             // a matching parser had no bound processor: NullPointerException

  predicate Matches(p: Parser, line: string) {
    p.parse(line).Some?
  }

  /** Some parser among the first n of the iteration matches the line. */
  ghost predicate MatchedBefore(pl: Pipeline, order: seq<string>, line: string, n: nat)
    requires n <= |order| && forall i :: 0 <= i < |order| ==> order[i] in pl.parsers
  {
    exists j :: 0 <= j < n && Matches(pl.parsers[order[j]], line)
  }

  /** handle(line), run over the first n names of the iteration. */
  function Run(pl: Pipeline, order: seq<string>, line: string, n: nat): (r: Dispatched)
    requires n <= |order| && forall i :: 0 <= i < |order| ==> order[i] in pl.parsers
    ensures |r.calls| <= |r.invoked| <= n
  {
    if n == 0 then Dispatched(false, [], [], false)
    else
      var d := Run(pl, order, line, n - 1);
      var name := order[n - 1];
      var parser := pl.parsers[name];
      if d.aborted || (d.matched && !parser.runAlways) then d
      else
        match parser.parse(line)
        case None => d.(invoked := d.invoked + [name])
        case Some(fields) =>
          if name in pl.transitions && pl.transitions[name] in pl.processors then
            var params := if name in pl.processorParams then Some(pl.processorParams[name]) else None;
            d.(matched := true, invoked := d.invoked + [name],
               calls := d.calls + [ProcessCall(pl.transitions[name], fields, params)])
          else
            d.(matched := true, invoked := d.invoked + [name], aborted := true)
  }

  /** The `match` flag after n parsers is exactly "one of them matched": it is never reset. */
  lemma {:induction false} RunMatchedFlag(pl: Pipeline, order: seq<string>, line: string, n: nat)
    requires n <= |order| && forall i :: 0 <= i < |order| ==> order[i] in pl.parsers
    ensures Run(pl, order, line, n).matched <==> MatchedBefore(pl, order, line, n)
  {
    if n > 0 {
      RunMatchedFlag(pl, order, line, n - 1);
      var d := Run(pl, order, line, n - 1);
      if d.aborted {
        RunAbortedMatched(pl, order, line, n - 1);
      }
      if MatchedBefore(pl, order, line, n - 1) {
        var j :| 0 <= j < n - 1 && Matches(pl.parsers[order[j]], line);
        assert 0 <= j < n && Matches(pl.parsers[order[j]], line);
      }
      if MatchedBefore(pl, order, line, n) && !MatchedBefore(pl, order, line, n - 1) {
        assert Matches(pl.parsers[order[n - 1]], line);
      }
    }
  }

  /** An aborted run has already matched. */
  lemma {:induction false} RunAbortedMatched(pl: Pipeline, order: seq<string>, line: string, n: nat)
    requires n <= |order| && forall i :: 0 <= i < |order| ==> order[i] in pl.parsers
    ensures Run(pl, order, line, n).aborted ==> Run(pl, order, line, n).matched
  {
    if n > 0 {
      RunAbortedMatched(pl, order, line, n - 1);
    }
  }

  /** Once aborted, the rest of the iteration adds nothing. */
  lemma {:induction false} RunAbortedStays(pl: Pipeline, order: seq<string>, line: string, n: nat, m: nat)
    requires n <= m <= |order| && forall i :: 0 <= i < |order| ==> order[i] in pl.parsers
    requires Run(pl, order, line, n).aborted
    ensures Run(pl, order, line, m) == Run(pl, order, line, n)
  {
    if m > n {
      RunAbortedStays(pl, order, line, n, m - 1);
    }
  }

  /**
   * The n-th parser of the iteration is invoked exactly when none before it matched
   * or it runs always (as long as no exception cut the iteration short).
   */
  lemma InvokedIff(pl: Pipeline, order: seq<string>, line: string, n: nat)
    requires n < |order| && forall i :: 0 <= i < |order| ==> order[i] in pl.parsers
    requires !Run(pl, order, line, n).aborted
    ensures var invokedHere := !MatchedBefore(pl, order, line, n) || pl.parsers[order[n]].runAlways;
      Run(pl, order, line, n + 1).invoked ==
        Run(pl, order, line, n).invoked + (if invokedHere then [order[n]] else [])
  {
    RunMatchedFlag(pl, order, line, n);
  }

  /**
   * In a wired pipeline, the n-th parser adds exactly one process call, to its bound
   * processor with its fields and parameters, when it is invoked and matches, and none otherwise.
   */
  lemma CallsStep(pl: Pipeline, order: seq<string>, line: string, n: nat)
    requires pl.Wired()
    requires n < |order| && forall i :: 0 <= i < |order| ==> order[i] in pl.parsers
    ensures var name := order[n];
      var invokedHere := !MatchedBefore(pl, order, line, n) || pl.parsers[name].runAlways;
      var before, after := Run(pl, order, line, n).calls, Run(pl, order, line, n + 1).calls;
      if invokedHere && Matches(pl.parsers[name], line) then
        |after| == |before| + 1 && after[..|before|] == before && ForwardedBy(pl, name, line, after[|before|])
      else after == before
  {
    RunMatchedFlag(pl, order, line, n);
    WiredNeverAborts(pl, order, line, n);
    assert order[n] in pl.transitions;
    assert pl.transitions[order[n]] in pl.transitions.Values;
  }

  /** A line no parser matches is offered to every parser and produces no process call. */
  lemma {:induction false} NoMatchNoCalls(pl: Pipeline, order: seq<string>, line: string, n: nat)
    requires n <= |order| && forall i :: 0 <= i < |order| ==> order[i] in pl.parsers
    requires forall i :: 0 <= i < n ==> !Matches(pl.parsers[order[i]], line)
    ensures Run(pl, order, line, n) == Dispatched(false, order[..n], [], false)
  {
    if n > 0 {
      NoMatchNoCalls(pl, order, line, n - 1);
      assert order[..n] == order[..n - 1] + [order[n - 1]];
    }
  }

  /** Every process call comes from a parser that matched, goes to its bound processor, and carries its fields and parameters. */
  lemma {:induction false} CallsComeFromMatches(pl: Pipeline, order: seq<string>, line: string, n: nat)
    requires n <= |order| && forall i :: 0 <= i < |order| ==> order[i] in pl.parsers
    ensures forall c :: c in Run(pl, order, line, n).calls ==>
      exists j :: 0 <= j < n && ForwardedBy(pl, order[j], line, c)
  {
    if n > 0 {
      CallsComeFromMatches(pl, order, line, n - 1);
      var d := Run(pl, order, line, n - 1);
      forall c | c in Run(pl, order, line, n).calls
        ensures exists j :: 0 <= j < n && ForwardedBy(pl, order[j], line, c)
      {
        if c in d.calls {
          var j :| 0 <= j < n - 1 && ForwardedBy(pl, order[j], line, c);
        } else {
          assert ForwardedBy(pl, order[n - 1], line, c);
        }
      }
    }
  }

  /** `c` is the call the parser `name` makes for the line. */
  ghost predicate ForwardedBy(pl: Pipeline, name: string, line: string, c: ProcessCall)
    requires name in pl.parsers
  {
    && pl.parsers[name].parse(line) == Some(c.fields)
    && name in pl.transitions && c.processor == pl.transitions[name]
    && c.params == (if name in pl.processorParams then Some(pl.processorParams[name]) else None)
  }

  /** A wired pipeline never raises the NullPointerException. */
  lemma {:induction false} WiredNeverAborts(pl: Pipeline, order: seq<string>, line: string, n: nat)
    requires pl.Wired()
    requires n <= |order| && forall i :: 0 <= i < |order| ==> order[i] in pl.parsers
    ensures !Run(pl, order, line, n).aborted
  {
    if n > 0 {
      WiredNeverAborts(pl, order, line, n - 1);
      var name := order[n - 1];
      assert name in pl.transitions;
      assert pl.transitions[name] in pl.transitions.Values;
    }
  }

  /** The first parser that matches is always invoked, and its call is the first one made. */
  lemma FirstMatchIsFirstCall(pl: Pipeline, order: seq<string>, line: string, k: nat)
    requires pl.Wired()
    requires k < |order| && forall i :: 0 <= i < |order| ==> order[i] in pl.parsers
    requires Matches(pl.parsers[order[k]], line)
    requires forall i :: 0 <= i < k ==> !Matches(pl.parsers[order[i]], line)
    ensures |Run(pl, order, line, k + 1).calls| == 1
    ensures ForwardedBy(pl, order[k], line, Run(pl, order, line, k + 1).calls[0])
  {
    NoMatchNoCalls(pl, order, line, k);
    assert order[k] in pl.transitions;
    assert pl.transitions[order[k]] in pl.transitions.Values;
  }

  /** A normal parser followed by a run-always parser: when both match, both processors get a call; when neither does, nobody does. */
  lemma AlwaysRunAfterMatch(pl: Pipeline, line: string, a: string, b: string)
    requires pl.Wired() && a != b && pl.parsers.Keys == {a, b}
    requires !pl.parsers[a].runAlways && pl.parsers[b].runAlways
    ensures var d := Run(pl, [a, b], line, 2);
      && (Matches(pl.parsers[a], line) && Matches(pl.parsers[b], line) ==>
            |d.calls| == 2 && d.calls[0].processor == pl.transitions[a] && d.calls[1].processor == pl.transitions[b])
      && (!Matches(pl.parsers[a], line) && !Matches(pl.parsers[b], line) ==> d.calls == [])
  {
    assert a in pl.transitions && b in pl.transitions;
    assert pl.transitions[a] in pl.transitions.Values && pl.transitions[b] in pl.transitions.Values;
    var order := [a, b];
    assert order[0] == a && order[1] == b;
    var d0, d1, d2 := Run(pl, order, line, 0), Run(pl, order, line, 1), Run(pl, order, line, 2);
    assert d0 == Dispatched(false, [], [], false);
    if Matches(pl.parsers[a], line) {
      assert d1.matched && !d1.aborted && |d1.calls| == 1 && d1.calls[0].processor == pl.transitions[a];
      if Matches(pl.parsers[b], line) {
        assert d2.calls == d1.calls + [d2.calls[1]];
      }
    } else {
      assert d1.calls == [] && !d1.matched && !d1.aborted;
    }
  }

  /** The reverse order: once the run-always parser has matched first, the normal parser is never asked. */
  lemma AlwaysRunFirstSkipsNormal(pl: Pipeline, line: string, a: string, b: string)
    requires pl.Wired() && a != b && pl.parsers.Keys == {a, b}
    requires !pl.parsers[a].runAlways && pl.parsers[b].runAlways
    requires Matches(pl.parsers[b], line)
    ensures var d := Run(pl, [b, a], line, 2);
      d.invoked == [b] && |d.calls| == 1 && d.calls[0].processor == pl.transitions[b]
  {
    assert b in pl.transitions;
    assert pl.transitions[b] in pl.transitions.Values;
    var order := [b, a];
    assert order[0] == b && order[1] == a;
    assert Run(pl, order, line, 0) == Dispatched(false, [], [], false);
    var d1 := Run(pl, order, line, 1);
    assert d1.matched && !d1.aborted && d1.invoked == [b] && |d1.calls| == 1;
  }

  /** Over an iteration without repeated names, no parser is asked twice, and only parsers of the iteration are asked. */
  lemma {:induction false} RunInvokedDistinct(pl: Pipeline, order: seq<string>, line: string, n: nat)
    requires n <= |order| && forall i :: 0 <= i < |order| ==> order[i] in pl.parsers
    requires forall i, j :: 0 <= i < j < |order| ==> order[i] != order[j]
    ensures forall i, j :: 0 <= i < j < |Run(pl, order, line, n).invoked| ==>
      Run(pl, order, line, n).invoked[i] != Run(pl, order, line, n).invoked[j]
    ensures forall k :: 0 <= k < |Run(pl, order, line, n).invoked| ==>
      exists m :: 0 <= m < n && Run(pl, order, line, n).invoked[k] == order[m]
  {
    if n == 0 {
      assert Run(pl, order, line, n).invoked == [];
    } else {
      RunInvokedDistinct(pl, order, line, n - 1);
      var before := Run(pl, order, line, n - 1).invoked;
      var inv := Run(pl, order, line, n).invoked;
      assert inv == before || inv == before + [order[n - 1]];
      forall k | 0 <= k < |before| ensures before[k] != order[n - 1] {
        var m :| 0 <= m < n - 1 && before[k] == order[m];
      }
      forall k | 0 <= k < |inv| ensures exists m :: 0 <= m < n && inv[k] == order[m] {
        if k < |before| {
          var m :| 0 <= m < n - 1 && before[k] == order[m];
          assert inv[k] == order[m];
        } else {
          assert inv[k] == order[n - 1];
        }
      }
      forall i, j | 0 <= i < j < |inv| ensures inv[i] != inv[j] {
        if j < |before| {
          assert inv[i] == before[i] && inv[j] == before[j];
        } else {
          assert inv[i] == before[i] && inv[j] == order[n - 1];
        }
      }
    }
  }

  /** The processor parameters a parser entry carries (castObjectMap of `processorParams`). */
  function ParamsOf(config: RawConfig): Option<RawConfig> {
    match Get(config, "processorParams")
    case Map(m) => Some(m)
    case _ => None
  }

  class DataHandler {
    const registry: Registry
    const debug: bool
    /** ConfigPattern.applicable */
    const isPattern: string -> bool
    /** ConfigPattern.processMap, applied to stored processor parameters */
    const processMap: RawConfig -> RawConfig
    var parsers: map<string, Parser>
    var processorParams: map<string, RawConfig>
    var processors: map<string, Processor>
    var transitions: map<string, string>

    function State(): Pipeline
      reads this
    {
      Pipeline(parsers, processorParams, processors, transitions)
    }

    ghost predicate Valid()
      reads this
    {
      State().Consistent()
    }

    constructor (registry: Registry, debug: bool, isPattern: string -> bool, processMap: RawConfig -> RawConfig)
      ensures Valid() && State().Wired()
      ensures State() == Pipeline(map[], map[], map[], map[])
      ensures this.registry == registry && this.debug == debug
      ensures this.isPattern == isPattern && this.processMap == processMap
    {
      this.registry := registry;
      this.debug := debug;
      this.isPattern := isPattern;
      this.processMap := processMap;
      parsers, processorParams, processors, transitions := map[], map[], map[], map[];
    }

    /** Creates the processor `name` and stores it, replacing any earlier one of that name. */
    method AddProcessor(name: string, config: RawConfig) returns (err: Option<ConfigError>)
      requires Valid()
      modifies this
      ensures Valid()
      ensures old(State().Wired()) ==> State().Wired()
      ensures parsers == old(parsers) && processorParams == old(processorParams) && transitions == old(transitions)
      ensures match CreateProcessor(registry, name, config, debug, isPattern)
        case Failure(e) => err == Some(e) && processors == old(processors)
        case Success(p) => err == None && processors == old(processors)[name := p]
    {
      var created := CreateProcessor(registry, name, config, debug, isPattern);
      if created.Failure? {
        return Some(created.error);
      }
      processors := processors[name := created.value];
      err := None;
    }

    /**
     * Creates the parser `name` and binds it to the processor its entry names.
     * The parser is stored before the binding is checked, so a dangling
     * `processor` leaves it registered but unbound.
     */
    method AddParser(name: string, config: RawConfig) returns (err: Option<ConfigError>)
      requires Valid()
      modifies this
      ensures Valid()
      ensures old(State().Wired()) && err.None? ==> State().Wired()
      ensures processors == old(processors)
      ensures match CreateParser(registry, name, config, debug, isPattern)
        case Failure(e) =>
          err == Some(e) && State() == old(State())
        case Success(parser) =>
          && parsers == old(parsers)[name := parser]
          && var target := Get(config, "processor");
          if !target.Str? || target.str !in processors then
            && err == Some(ProcessorMissing(name))
            && processorParams == old(processorParams) && transitions == old(transitions)
          else
            match ParamsOf(config)
            case None =>
              err == None && processorParams == old(processorParams) && transitions == old(transitions)[name := target.str]
            case Some(params) =>
              && processorParams == old(processorParams)[name := processMap(params)]
              && var refusal := processors[target.str].validateParams(parser.outputKeys, params);
              && (refusal.Some? ==> err == refusal && transitions == old(transitions))
              && (refusal.None? ==> err == None && transitions == old(transitions)[name := target.str])
    {
      var created := CreateParser(registry, name, config, debug, isPattern);
      if created.Failure? {
        return Some(created.error);
      }
      var parser := created.value;
      parsers := parsers[name := parser];
      var target := Get(config, "processor");
      if !target.Str? || target.str !in processors {
        return Some(ProcessorMissing(name));
      }
      var params := ParamsOf(config);
      if params.Some? {
        processorParams := processorParams[name := processMap(params.value)];
        var refusal := processors[target.str].validateParams(parser.outputKeys, params.value);
        if refusal.Some? {
          return refusal;
        }
      }
      transitions := transitions[name := target.str];
      err := None;
    }

    /**
     * handle(line) over the parsers in the iteration order `order`: which parsers
     * were asked, which process calls were made, and whether a matching parser
     * without a bound processor raised a NullPointerException. The maps are not changed.
     */
    method Handle(line: string, order: seq<string>) returns (invoked: seq<string>, calls: seq<ProcessCall>, aborted: bool)
      requires Valid() && Enumerates(order, parsers.Keys)
      ensures var d := Run(State(), order, line, |order|);
        invoked == d.invoked && calls == d.calls && aborted == d.aborted
    {
      var matched := false;
      invoked, calls, aborted := [], [], false;
      var i := 0;
      while i < |order|
        invariant 0 <= i <= |order|
        invariant Run(State(), order, line, i) == Dispatched(matched, invoked, calls, aborted)
        invariant !aborted
      {
        var name := order[i];
        if !matched || parsers[name].runAlways {
          var fields := parsers[name].parse(line);
          invoked := invoked + [name];
          if fields.Some? {
            matched := true;
            if name in transitions && transitions[name] in processors {
              var params := if name in processorParams then Some(processorParams[name]) else None;
              calls := calls + [ProcessCall(transitions[name], fields.value, params)];
            } else {
              aborted := true;
              RunAbortedStays(State(), order, line, i + 1, |order|);
              return;
            }
          }
        }
        i := i + 1;
      }
    }
  }
}
