/**
 * The older revision of the client (lib/cottus.rb): it keeps the host list
 * and the cursor itself, appends an optional port to every host, and offers
 * only `get`, with the same rotate-and-retry loop as RoundRobinStrategy.
 */
module CottusLegacy {
  import opened Wrappers
  import opened RubyString
  import opened Strategies

  /** The hosts before any port is appended: a String is split on commas, an Array is kept. */
  function ListedHosts(hosts: StringOrArray): seq<string>
  {
    if hosts.Str? then Split(hosts.s, ',') else hosts.items
  }

  /** What `"#{h}:#{port}"` adds after each host, or nothing when the port is nil. */
  function PortSuffix(port: Option<string>): string
  {
    if port.Some? then ":" + port.value else ""
  }

  /**
   * `parse_hosts(hosts, port)`: one host per listed host, in the same order,
   * each followed by ":" and the port when a port is given.
   */
  function ParseHosts(hosts: StringOrArray, port: Option<string>): (r: seq<string>)
    ensures |r| == |ListedHosts(hosts)|
    ensures forall i :: 0 <= i < |r| ==> r[i] == ListedHosts(hosts)[i] + PortSuffix(port)
  {
    var listed := ListedHosts(hosts);
    if port.None? then listed
    else seq(|listed|, i requires 0 <= i < |listed| => listed[i] + ":" + port.value)
  }

  /** Without a port the listed hosts come back unchanged. */
  lemma ParseHostsWithoutPort(hosts: StringOrArray)
    ensures ParseHosts(hosts, None) == ListedHosts(hosts)
  {
    var r, listed := ParseHosts(hosts, None), ListedHosts(hosts);
    assert forall i :: 0 <= i < |r| ==> r[i] == listed[i] + [];
  }

  /**
   * With a port, each host ends in ":" + port and cutting that suffix off
   * gives back the listed host: the port is appended and nothing else changes.
   */
  lemma PortIsOnlyAppended(hosts: StringOrArray, port: string)
    ensures var r := ParseHosts(hosts, Some(port));
            forall i :: 0 <= i < |r| ==>
              |r[i]| == |ListedHosts(hosts)[i]| + |port| + 1
              && r[i][..|ListedHosts(hosts)[i]|] == ListedHosts(hosts)[i]
              && r[i][|ListedHosts(hosts)[i]|..] == [':'] + port
  {
    var r, listed := ParseHosts(hosts, Some(port)), ListedHosts(hosts);
    forall i | 0 <= i < |r|
      ensures |r[i]| == |listed[i]| + |port| + 1
      ensures r[i][..|listed[i]|] == listed[i] && r[i][|listed[i]|..] == [':'] + port
    {
      assert r[i] == listed[i] + (":" + port);
    }
  }

  /** The old `Cottus::Client`, which includes the HTTP library into itself. */
  class Client {
    /** `@hosts`, exposed by `attr_reader :hosts`; never reassigned. */
    const hosts: seq<string>
    /** The HTTP class methods (`self.class.get`). */
    const http: Transport
    /** The cursor `@index`. */
    var index: nat

    ghost predicate Valid()
      reads this
    {
      if |hosts| == 0 then index == 0 else index < |hosts|
    }

    /** `initialize(hosts, options)`: of the options only `:port` is read. */
    constructor (hosts: StringOrArray, port: Option<string>, http: Transport)
      ensures Valid()
      ensures this.hosts == ParseHosts(hosts, port) && this.http == http && index == 0
    {
      this.hosts := ParseHosts(hosts, port);
      this.http := http;
      index := 0;
    }

    /** `next_host`: the host under the cursor; the cursor moves one place on, wrapping. */
    method NextHost() returns (h: string)
      requires Valid() && |hosts| > 0
      modifies this
      ensures Valid()
      ensures h == hosts[old(index)]
      ensures index == (old(index) + 1) % |hosts|
    {
      h := hosts[index];
      index := (index + 1) % |hosts|;
    }

    /**
     * `get(path, options)`: the same loop as RoundRobinStrategy's `execute`,
     * written inline, with the verb fixed to `get`.
     */
    method Get(path: string, options: Options) returns (outcome: Outcome, dispatched: seq<Request>)
      requires Valid()
      modifies this
      ensures Valid()
      ensures Call(outcome, dispatched) == Execution(hosts, old(index), http, CallArgs("get", path, options), 0)
      ensures |hosts| > 0 ==> index == HostSlot(old(index), |dispatched|, |hosts|)
      ensures |hosts| == 0 ==> index == old(index)
    {
      if |hosts| == 0 {
        // next_host computes (index + 1) % 0, which no rescue clause catches
        return Raised(ZeroDivisionError), [];
      }
      var args := CallArgs("get", path, options);
      ghost var start := index;
      ModUnique(start, |hosts|, 0, start);
      var tries := 0;
      dispatched := [];
      while true
        invariant Valid() && tries <= |hosts|
        invariant index == HostSlot(start, tries, |hosts|)
        invariant |dispatched| == tries
        invariant Execution(hosts, start, http, args, 0)
               == var rest := Execution(hosts, start, http, args, tries);
                  Call(rest.outcome, dispatched + rest.dispatched)
        decreases |hosts| - tries
      {
        var host := NextHost();
        var request := Request("get", host + path, options);
        assert request == RequestAt(hosts, start, args, tries);
        outcome := Attempt(http, tries, request);
        ExecutionStep(hosts, start, http, args, tries, dispatched);
        dispatched := dispatched + [request];
        if !Retries(outcome) || tries >= |hosts| {
          return;
        }
        tries := tries + 1;
      }
    }
  }
}
