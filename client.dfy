/**
 * The newer client (lib/cottus/client.rb): it parses the host list, builds a
 * strategy object (RoundRobinStrategy unless told otherwise) and forwards
 * each HTTP verb to that strategy's `execute`.
 */
module CottusClient {
  import opened Wrappers
  import opened RubyString
  import opened Strategies
  import CottusLegacy

  /** The strategy classes a client can be handed in its `:strategy` option. */
  datatype StrategyClass = RoundRobinStrategyClass | TimeoutableStrategyClass

  /** The options hash of `Client.new`: `:strategy` and `:strategy_options`, either possibly nil. */
  datatype ClientOptions = ClientOptions(strategy: Option<StrategyClass>, strategyOptions: StrategyOptions)

  /** A call `cls.new(hosts, http, options)`: which class is instantiated, and with what. */
  datatype StrategyConstruction = StrategyConstruction(cls: StrategyClass, hosts: seq<string>, options: StrategyOptions)

  /** The strategy object a client holds. */
  datatype StrategyObject = RoundRobin(rr: RoundRobinStrategy) | Timeoutable(t: TimeoutableStrategy) {
    /** The objects whose state an `execute` on this strategy may change. */
    function Objects(): set<object> {
      if RoundRobin? then {rr} else {}
    }

    function Class(): StrategyClass {
      if RoundRobin? then RoundRobinStrategyClass else TimeoutableStrategyClass
    }
  }

  /**
   * `parse_hosts(hosts)`: a String is split on commas, so no host it yields
   * holds a comma and no trailing empty host survives; an Array is kept as it is.
   */
  function ParseHosts(hosts: StringOrArray): (r: seq<string>)
    ensures hosts.Arr? ==> r == hosts.items
    ensures hosts.Str? ==> forall i :: 0 <= i < |r| ==> ',' !in r[i]
    ensures hosts.Str? ==> r == [] || r[|r| - 1] != []
  {
    if hosts.Str? then Split(hosts.s, ',') else hosts.items
  }

  /**
   * A connection string and the array of its hosts configure the same hosts,
   * whenever no host holds a comma and the last one is not empty.
   */
  lemma ConnectionStringMatchesArray(items: seq<string>)
    requires forall i :: 0 <= i < |items| ==> ',' !in items[i]
    requires items == [] || items[|items| - 1] != []
    ensures ParseHosts(Str(Join(items, ','))) == ParseHosts(Arr(items)) == items
  {
    SplitJoin(items, ',');
  }

  /** `'host1:1255,host2:1255,host3:1255'` gives the three hosts in order. */
  lemma ThreeHostConnectionString()
    ensures ParseHosts(Str("host1:1255,host2:1255,host3:1255")) == ["host1:1255", "host2:1255", "host3:1255"]
  {
    var items := ["host1:1255", "host2:1255", "host3:1255"];
    assert Join(items[2..], ',') == "host3:1255";
    assert Join(items[1..], ',') == "host2:1255,host3:1255";
    assert Join(items, ',') == "host1:1255,host2:1255,host3:1255";
    ConnectionStringMatchesArray(items);
  }

  /** The older parser, given no port, parses exactly as this one does. */
  lemma LegacyParserAgreesWithoutPort(hosts: StringOrArray)
    ensures CottusLegacy.ParseHosts(hosts, None) == ParseHosts(hosts)
  {
    CottusLegacy.ParseHostsWithoutPort(hosts);
  }

  /**
   * `create_strategy(options)`: RoundRobinStrategy unless `:strategy` names a
   * class; built from the parsed hosts, with `:strategy_options` passed on as given.
   */
  function CreateStrategy(hosts: seq<string>, options: ClientOptions): (s: StrategyConstruction)
    ensures options.strategy.None? ==> s.cls == RoundRobinStrategyClass
    ensures options.strategy.Some? ==> s.cls == options.strategy.value
    ensures s.hosts == hosts && s.options == options.strategyOptions
  {
    StrategyConstruction(options.strategy.GetOr(RoundRobinStrategyClass), hosts, options.strategyOptions)
  }

  class Client {
    /** `@hosts`, exposed by `attr_reader :hosts`. */
    const hosts: seq<string>
    /** `@strategy`, exposed by `attr_reader :strategy`. */
    const strategy: StrategyObject

    ghost predicate Valid()
      reads strategy.Objects()
    {
      strategy.RoundRobin? ==> strategy.rr.Valid() && strategy.rr.hosts == hosts
    }

    /** `initialize(hosts, options)`, with `http` standing for the HTTP library the strategy is given. */
    constructor (hosts: StringOrArray, options: ClientOptions, http: Transport)
      ensures Valid()
      ensures this.hosts == ParseHosts(hosts)
      ensures strategy.Class() == CreateStrategy(this.hosts, options).cls
      ensures strategy.RoundRobin? ==>
        fresh(strategy.rr) && strategy.rr.index == 0 && strategy.rr.client == http
    {
      var parsed := ParseHosts(hosts);
      var construction := CreateStrategy(parsed, options);
      this.hosts := parsed;
      if construction.cls == RoundRobinStrategyClass {
        var rr := new RoundRobinStrategy(construction.hosts, http, construction.options);
        strategy := RoundRobin(rr);
      } else {
        var t := new TimeoutableStrategy(construction.hosts, http, construction.options);
        strategy := Timeoutable(t);
      }
    }

    /**
     * The strategy did `execute(verb, path, options)`: a RoundRobinStrategy ran
     * its retry loop from its cursor; a strategy without `execute` raised
     * NoMethodError and sent nothing.
     */
    twostate predicate Delegated(verb: string, path: string, options: Options, outcome: Outcome, dispatched: seq<Request>)
      reads strategy.Objects()
    {
      match strategy
      case RoundRobin(rr) =>
        Call(outcome, dispatched) == Execution(hosts, old(rr.index), rr.client, CallArgs(verb, path, options), 0)
        && (|hosts| > 0 ==> rr.index == HostSlot(old(rr.index), |dispatched|, |hosts|))
        && (|hosts| == 0 ==> rr.index == old(rr.index))
      case Timeoutable(_) =>
        outcome == Raised(NoMethodError) && dispatched == []
    }

    /** Sends `execute(verb, path, options)` to whatever the strategy object is. */
    method StrategyExecute(verb: string, path: string, options: Options) returns (outcome: Outcome, dispatched: seq<Request>)
      requires Valid()
      modifies strategy.Objects()
      ensures Valid()
      ensures Delegated(verb, path, options, outcome, dispatched)
    {
      match strategy
      case RoundRobin(rr) =>
        outcome, dispatched := rr.Execute(verb, path, options);
      case Timeoutable(_) =>
        outcome, dispatched := Raised(NoMethodError), [];
    }

    method Get(path: string, options: Options) returns (outcome: Outcome, dispatched: seq<Request>)
      requires Valid()
      modifies strategy.Objects()
      ensures Valid() && Delegated("get", path, options, outcome, dispatched)
    {
      outcome, dispatched := StrategyExecute("get", path, options);
    }

    method Post(path: string, options: Options) returns (outcome: Outcome, dispatched: seq<Request>)
      requires Valid()
      modifies strategy.Objects()
      ensures Valid() && Delegated("post", path, options, outcome, dispatched)
    {
      outcome, dispatched := StrategyExecute("post", path, options);
    }

    method Put(path: string, options: Options) returns (outcome: Outcome, dispatched: seq<Request>)
      requires Valid()
      modifies strategy.Objects()
      ensures Valid() && Delegated("put", path, options, outcome, dispatched)
    {
      outcome, dispatched := StrategyExecute("put", path, options);
    }

    method Head(path: string, options: Options) returns (outcome: Outcome, dispatched: seq<Request>)
      requires Valid()
      modifies strategy.Objects()
      ensures Valid() && Delegated("head", path, options, outcome, dispatched)
    {
      outcome, dispatched := StrategyExecute("head", path, options);
    }

    method Patch(path: string, options: Options) returns (outcome: Outcome, dispatched: seq<Request>)
      requires Valid()
      modifies strategy.Objects()
      ensures Valid() && Delegated("patch", path, options, outcome, dispatched)
    {
      outcome, dispatched := StrategyExecute("patch", path, options);
    }
  }
}
