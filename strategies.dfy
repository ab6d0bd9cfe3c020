/**
 * Round-robin host selection with failover (lib/cottus/strategies.rb).
 *
 * A strategy owns a fixed list of host prefixes and a cursor. Each request is
 * sent to the host under the cursor, and the cursor moves on. When the
 * transport raises one of four network errors, the request is sent again to
 * the next host. A call gives up once its retry counter has reached the
 * number of hosts, so it makes at most |hosts| + 1 attempts.
 */
module Strategies {
  import opened Wrappers

  /** The exception classes the model tells apart. */
  datatype ErrorKind =
    | TimeoutError        // Timeout::Error
    | ECONNREFUSED        // Errno::ECONNREFUSED
    | ETIMEDOUT           // Errno::ETIMEDOUT
    | ECONNRESET          // Errno::ECONNRESET
    | ZeroDivisionError   // raised by the cursor update on an empty host list
    | NoMethodError       // raised when a strategy has no `execute`
    | OtherError(name: string)

  /** VALID_EXCEPTIONS: the only errors a call retries on. */
  const ValidExceptions: seq<ErrorKind> := [TimeoutError, ECONNREFUSED, ETIMEDOUT, ECONNRESET]

  /** The test of `rescue *VALID_EXCEPTIONS`, one kind at a time. */
  predicate IsRescued(e: ErrorKind) {
    e.TimeoutError? || e.ECONNREFUSED? || e.ETIMEDOUT? || e.ECONNRESET?
  }

  /** IsRescued holds of exactly the kinds listed in VALID_EXCEPTIONS. */
  lemma RescuedMeansListed(e: ErrorKind)
    ensures IsRescued(e) <==> e in ValidExceptions
  {
    if e in ValidExceptions {
      var i :| 0 <= i < |ValidExceptions| && ValidExceptions[i] == e;
    }
  }

  datatype Response = Response(body: string)

  /** A value in an options hash, kept as its printed form; nothing here examines it. */
  datatype OptionValue = OptionValue(inspect: string)

  /** Per-request options (query, body, headers): passed along unexamined. */
  type Options = map<string, OptionValue>

  /** The `strategy_options` a client hands to a strategy's constructor (`nil` or a hash). */
  type StrategyOptions = Option<map<string, OptionValue>>

  /** What one transport call does: answer, or raise. */
  datatype Outcome = Ok(response: Response) | Raised(error: ErrorKind)

  /** One call the transport receives: `send(verb, url, options)`. */
  datatype Request = Request(verb: string, url: string, options: Options)

  /** The arguments of one `execute(meth, path, options)`. */
  datatype CallArgs = CallArgs(verb: string, path: string, options: Options)

  /** What one `execute` call returns or raises, and every request it sent, in order. */
  datatype Call = Call(outcome: Outcome, dispatched: seq<Request>)

  /**
   * The HTTP transport. Its answer may depend on the request and on the number
   * of the attempt within the current call (0 for the first), which stands for
   * whatever the network does between attempts.
   */
  type Transport = (nat, Request) -> Outcome

  /**
   * What the transport does with attempt `k`, sending `request`. The loops in
   * `Execute` and `Get` call the transport through this function rather than
   * applying `client` directly: it keeps the application of the transport,
   * which reads no heap, apart from the object's state in their proofs.
   */
  function Attempt(client: Transport, k: nat, request: Request): Outcome
  {
    client(k, request)
  }

  /** An outcome that the rescue clause catches, so that the call may retry. */
  predicate Retries(o: Outcome) {
    o.Raised? && IsRescued(o.error)
  }

  /**
   * The cursor for attempt `k` of a call that started at `start`: `k` moves
   * of `next_host`, each `(index + 1) % n`.
   */
  function HostSlot(start: nat, k: nat, n: nat): (slot: nat)
    requires n > 0
    ensures slot < n
  {
    if k == 0 then start % n else (HostSlot(start, k - 1, n) + 1) % n
  }

  /** The request that attempt `k` of a call starting at `start` sends. */
  function RequestAt(hosts: seq<string>, start: nat, args: CallArgs, k: nat): Request
    requires |hosts| > 0
  {
    Request(args.verb, hosts[HostSlot(start, k, |hosts|)] + args.path, args.options)
  }

  /** The first `count` requests a call starting at `start` would send. */
  function RequestsFrom(hosts: seq<string>, start: nat, args: CallArgs, count: nat): (r: seq<Request>)
    requires |hosts| > 0
    ensures |r| == count
    ensures forall k :: 0 <= k < count ==> r[k] == RequestAt(hosts, start, args, k)
  {
    seq(count, k requires 0 <= k => RequestAt(hosts, start, args, k))
  }

  /**
   * The behaviour of `execute` from the point where its retry counter is
   * `tries`: send to the host under the cursor; on a rescued error retry while
   * `tries < |hosts|`; otherwise return or raise what the transport did.
   * With no hosts the cursor update divides by zero before anything is sent.
   */
  function Execution(hosts: seq<string>, start: nat, client: Transport, args: CallArgs, tries: nat): (c: Call)
    requires tries <= |hosts|
    ensures |hosts| == 0 ==> c == Call(Raised(ZeroDivisionError), [])
    ensures |hosts| > 0 ==> 1 <= |c.dispatched| <= |hosts| + 1 - tries
    decreases |hosts| - tries
  {
    if |hosts| == 0 then Call(Raised(ZeroDivisionError), [])
    else
      var request := RequestAt(hosts, start, args, tries);
      var outcome := Attempt(client, tries, request);
      if Retries(outcome) && tries < |hosts| then
        var rest := Execution(hosts, start, client, args, tries + 1);
        Call(rest.outcome, [request] + rest.dispatched)
      else
        Call(outcome, [request])
  }

  /** Attempt k of a call that has reached retry counter `tries` goes to the host `tries + k` places on. */
  lemma {:induction false} ExecutionSendsToConsecutiveHosts(hosts: seq<string>, start: nat, client: Transport, args: CallArgs, tries: nat, c: Call)
    requires 0 < |hosts| && tries <= |hosts|
    requires c == Execution(hosts, start, client, args, tries)
    ensures forall k :: 0 <= k < |c.dispatched| ==> c.dispatched[k] == RequestAt(hosts, start, args, tries + k)
    decreases |hosts| - tries
  {
    var request := RequestAt(hosts, start, args, tries);
    if Retries(client(tries, request)) && tries < |hosts| {
      var rest := Execution(hosts, start, client, args, tries + 1);
      ExecutionSendsToConsecutiveHosts(hosts, start, client, args, tries + 1, rest);
      assert c.dispatched == [request] + rest.dispatched;
      forall k | 1 <= k < |c.dispatched|
        ensures c.dispatched[k] == RequestAt(hosts, start, args, tries + k)
      {
        assert c.dispatched[k] == rest.dispatched[k - 1];
        assert tries + 1 + (k - 1) == tries + k;
      }
    }
  }

  /**
   * One turn of the retry loop: with `sent` already sent, a call at retry
   * counter `tries` either stops with this attempt's outcome, or goes on
   * from `tries + 1` with this attempt's request added to `sent`.
   */
  lemma ExecutionStep(hosts: seq<string>, start: nat, client: Transport, args: CallArgs, tries: nat, sent: seq<Request>)
    requires 0 < |hosts| && tries <= |hosts|
    ensures var request := RequestAt(hosts, start, args, tries);
            var outcome := client(tries, request);
            var here := Execution(hosts, start, client, args, tries);
            if Retries(outcome) && tries < |hosts| then
              var rest := Execution(hosts, start, client, args, tries + 1);
              Call(here.outcome, sent + here.dispatched) == Call(rest.outcome, (sent + [request]) + rest.dispatched)
            else
              Call(here.outcome, sent + here.dispatched) == Call(outcome, sent + [request])
  {
    var request := RequestAt(hosts, start, args, tries);
    if Retries(client(tries, request)) && tries < |hosts| {
      var rest := Execution(hosts, start, client, args, tries + 1);
      assert sent + ([request] + rest.dispatched) == (sent + [request]) + rest.dispatched;
    }
  }

  /**
   * An independent description of a call: the requests go to consecutive
   * hosts from `start`; every attempt but the last raised a rescued error; the
   * call reports the last attempt's own outcome; and it stopped because that
   * outcome is not retried or because |hosts| + 1 attempts were made.
   */
  ghost predicate IsRun(hosts: seq<string>, start: nat, client: Transport, args: CallArgs, c: Call)
    requires |hosts| > 0
  {
    var a := |c.dispatched|;
    1 <= a <= |hosts| + 1
    && (forall k :: 0 <= k < a ==> c.dispatched[k] == RequestAt(hosts, start, args, k))
    && (forall k :: 0 <= k < a - 1 ==> Retries(client(k, c.dispatched[k])))
    && c.outcome == client(a - 1, c.dispatched[a - 1])
    && (!Retries(c.outcome) || a == |hosts| + 1)
  }

  /** How a call that has reached retry counter `tries` stops. */
  lemma {:induction false} ExecutionStops(hosts: seq<string>, start: nat, client: Transport, args: CallArgs, tries: nat, c: Call)
    requires 0 < |hosts| && tries <= |hosts|
    requires c == Execution(hosts, start, client, args, tries)
    ensures c.outcome == client(tries + |c.dispatched| - 1, c.dispatched[|c.dispatched| - 1])
    ensures forall k :: 0 <= k < |c.dispatched| - 1 ==> Retries(client(tries + k, c.dispatched[k]))
    ensures !Retries(c.outcome) || tries + |c.dispatched| - 1 == |hosts|
    decreases |hosts| - tries
  {
    var request := RequestAt(hosts, start, args, tries);
    if Retries(client(tries, request)) && tries < |hosts| {
      var rest := Execution(hosts, start, client, args, tries + 1);
      ExecutionStops(hosts, start, client, args, tries + 1, rest);
      assert c.dispatched == [request] + rest.dispatched;
      assert c.dispatched[|c.dispatched| - 1] == rest.dispatched[|rest.dispatched| - 1];
      forall k | 1 <= k < |c.dispatched| - 1
        ensures Retries(client(tries + k, c.dispatched[k]))
      {
        assert c.dispatched[k] == rest.dispatched[k - 1];
        assert tries + k == tries + 1 + (k - 1);
      }
    }
  }

  /** A call from a fresh retry counter is a run in the sense of IsRun. */
  lemma ExecutionIsRun(hosts: seq<string>, start: nat, client: Transport, args: CallArgs)
    requires |hosts| > 0
    ensures IsRun(hosts, start, client, args, Execution(hosts, start, client, args, 0))
  {
    ExecutionStops(hosts, start, client, args, 0, Execution(hosts, start, client, args, 0));
    ExecutionSendsToConsecutiveHosts(hosts, start, client, args, 0, Execution(hosts, start, client, args, 0));
  }

  /** IsRun leaves no choice: two runs of the same call are the same run. */
  lemma RunIsUnique(hosts: seq<string>, start: nat, client: Transport, args: CallArgs, c1: Call, c2: Call)
    requires |hosts| > 0
    requires IsRun(hosts, start, client, args, c1) && IsRun(hosts, start, client, args, c2)
    ensures c1 == c2
  {
    var a1, a2 := |c1.dispatched|, |c2.dispatched|;
    if a1 != a2 {
      assert false;
    }
    assert c1.dispatched == c2.dispatched;
  }

  /** Every call is exactly the run that IsRun describes. */
  lemma ExecutionIsTheRun(hosts: seq<string>, start: nat, client: Transport, args: CallArgs, c: Call)
    requires |hosts| > 0
    ensures IsRun(hosts, start, client, args, c) <==> c == Execution(hosts, start, client, args, 0)
  {
    ExecutionIsRun(hosts, start, client, args);
    if IsRun(hosts, start, client, args, c) {
      RunIsUnique(hosts, start, client, args, c, Execution(hosts, start, client, args, 0));
    }
  }

  /**
   * When the first `k` attempts raise rescued errors and attempt `k` (at most
   * |hosts|) answers, the call answers with that response after `k + 1`
   * requests to consecutive hosts, and no error escapes.
   */
  lemma SucceedsAfterTransientFailures(hosts: seq<string>, start: nat, client: Transport, args: CallArgs, k: nat, response: Response)
    requires 0 < |hosts| && k <= |hosts|
    requires forall j :: 0 <= j < k ==> Retries(client(j, RequestAt(hosts, start, args, j)))
    requires client(k, RequestAt(hosts, start, args, k)) == Ok(response)
    ensures Execution(hosts, start, client, args, 0) == Call(Ok(response), RequestsFrom(hosts, start, args, k + 1))
  {
    ExecutionIsTheRun(hosts, start, client, args, Call(Ok(response), RequestsFrom(hosts, start, args, k + 1)));
  }

  /**
   * When every attempt raises a rescued error, the call sends |hosts| + 1
   * requests, so the first host it tried is tried twice, and it raises the
   * last attempt's error unchanged.
   */
  lemma ExhaustsAfterEveryHostAndOneMore(hosts: seq<string>, start: nat, client: Transport, args: CallArgs)
    requires 0 < |hosts| && start < |hosts|
    requires forall j :: 0 <= j <= |hosts| ==> Retries(client(j, RequestAt(hosts, start, args, j)))
    ensures Execution(hosts, start, client, args, 0)
         == Call(client(|hosts|, RequestAt(hosts, start, args, |hosts|)), RequestsFrom(hosts, start, args, |hosts| + 1))
    ensures Retries(Execution(hosts, start, client, args, 0).outcome)
    ensures RequestAt(hosts, start, args, |hosts|).url == RequestAt(hosts, start, args, 0).url == hosts[start] + args.path
  {
    var n := |hosts|;
    var sent := RequestsFrom(hosts, start, args, n + 1);
    var run := Call(client(n, RequestAt(hosts, start, args, n)), sent);
    assert IsRun(hosts, start, client, args, run) by {
      assert forall k :: 0 <= k < n ==> Retries(client(k, sent[k]));
      assert run.outcome == client(n, sent[n]);
    }
    ExecutionIsTheRun(hosts, start, client, args, run);
    SlotWithinOneTurn(start, n, n);
    SlotWithinOneTurn(start, 0, n);
  }

  /** An error outside VALID_EXCEPTIONS escapes after one request and nothing else is sent. */
  lemma NonRescuedErrorStopsAtOnce(hosts: seq<string>, start: nat, client: Transport, args: CallArgs, e: ErrorKind)
    requires |hosts| > 0
    requires client(0, RequestAt(hosts, start, args, 0)) == Raised(e) && !IsRescued(e)
    ensures Execution(hosts, start, client, args, 0) == Call(Raised(e), [RequestAt(hosts, start, args, 0)])
  {
    ExecutionIsTheRun(hosts, start, client, args, Call(Raised(e), [RequestAt(hosts, start, args, 0)]));
  }

  // Euclidean remainder facts the cursor arithmetic needs; the solver does
  // not find them unaided because they rest on products of unknowns.

  lemma MulAtLeast(d: int, n: int)
    requires d >= 1 && n > 0
    ensures d * n >= n
  {
    assert d * n == (d - 1) * n + n;
    MulNonnegative(d - 1, n);
  }

  lemma MulNonnegative(a: int, b: int)
    requires a >= 0 && b >= 0
    ensures a * b >= 0
  {
  }

  /** The remainder is the only r in [0, n) that differs from x by a multiple of n. */
  lemma ModUnique(x: int, n: int, q: int, r: int)
    requires n > 0 && 0 <= r < n && x == q * n + r
    ensures x % n == r
  {
    var d := x / n - q;
    assert d * n == r - x % n;
    if d > 0 {
      MulAtLeast(d, n);
    } else if d < 0 {
      MulAtLeast(-d, n);
    }
  }

  lemma ModAddMod(a: nat, b: nat, n: nat)
    requires n > 0
    ensures (a % n + b) % n == (a + b) % n
  {
    var r := a % n + b;
    ModUnique(a + b, n, a / n + r / n, r % n);
  }

  /** k moves of the cursor from `start` land on `(start + k) % n`. */
  lemma {:induction false} SlotClosedForm(start: nat, k: nat, n: nat)
    requires n > 0
    ensures HostSlot(start, k, n) == (start + k) % n
  {
    if k > 0 {
      SlotClosedForm(start, k - 1, n);
      ModAddMod(start + k - 1, 1, n);
    }
  }

  /** For a start inside the list and fewer than n steps, the slot wraps at most once. */
  lemma SlotWithinOneTurn(start: nat, k: nat, n: nat)
    requires start < n && k <= n
    ensures HostSlot(start, k, n) == if start + k < n then start + k else start + k - n
  {
    SlotClosedForm(start, k, n);
    if start + k < n {
      ModUnique(start + k, n, 0, start + k);
    } else {
      ModUnique(start + k, n, 1, start + k - n);
    }
  }

  /**
   * Consecutive `execute` calls on one strategy: each starts where the cursor
   * was left, which is its start moved on by the number of requests it sent.
   */
  function Session(hosts: seq<string>, start: nat, client: Transport, calls: seq<CallArgs>): (r: seq<Call>)
    requires |hosts| > 0
    ensures |r| == |calls|
    decreases |calls|
  {
    if calls == [] then []
    else
      var c := Execution(hosts, start, client, calls[0], 0);
      [c] + Session(hosts, (start + |c.dispatched|) % |hosts|, client, calls[1..])
  }

  /** Where the cursor stands after the consecutive calls of `Session`. */
  function SessionEnd(hosts: seq<string>, start: nat, client: Transport, calls: seq<CallArgs>): (r: nat)
    requires |hosts| > 0 && start < |hosts|
    ensures r < |hosts|
    decreases |calls|
  {
    if calls == [] then start
    else
      var c := Execution(hosts, start, client, calls[0], 0);
      SessionEnd(hosts, (start + |c.dispatched|) % |hosts|, client, calls[1..])
  }

  /**
   * When every first attempt answers, the j-th of consecutive calls sends
   * exactly one request, to the host j places after the starting cursor
   * (wrapping around the list).
   */
  lemma {:induction false} SuccessfulCallsRotate(hosts: seq<string>, start: nat, client: Transport, calls: seq<CallArgs>)
    requires |hosts| > 0
    requires forall j :: 0 <= j < |calls| ==> client(0, RequestAt(hosts, start, calls[j], j)).Ok?
    ensures forall j :: 0 <= j < |calls| ==>
      Session(hosts, start, client, calls)[j].dispatched == [RequestAt(hosts, start, calls[j], j)]
    decreases |calls|
  {
    if calls != [] {
      var n := |hosts|;
      var s := Session(hosts, start, client, calls);
      var c := Execution(hosts, start, client, calls[0], 0);
      assert c.dispatched == [RequestAt(hosts, start, calls[0], 0)];
      var next := (start + 1) % n;
      forall j | 0 <= j < |calls| - 1
        ensures client(0, RequestAt(hosts, next, calls[1..][j], j)).Ok?
      {
        assert client(0, RequestAt(hosts, start, calls[j + 1], j + 1)).Ok?;
        SlotClosedForm(next, j, n);
        SlotClosedForm(start, j + 1, n);
        ModAddMod(start + 1, j, n);
      }
      SuccessfulCallsRotate(hosts, next, client, calls[1..]);
      forall j | 1 <= j < |calls|
        ensures s[j].dispatched == [RequestAt(hosts, start, calls[j], j)]
      {
        assert s[j] == Session(hosts, next, client, calls[1..])[j - 1];
        SlotClosedForm(next, j - 1, n);
        SlotClosedForm(start, j, n);
        ModAddMod(start + 1, j - 1, n);
      }
    }
  }

  /** How many places after `start` slot `h` comes, going round the list. */
  function SlotOffset(start: nat, h: nat, n: nat): nat
    requires start < n && h < n
  {
    if start <= h then h - start else h + n - start
  }

  /**
   * n consecutive positions from any start cover the n hosts, each exactly
   * once: the host slots are pairwise distinct and slot h is reached after
   * SlotOffset(start, h, n) < n steps.
   */
  lemma RotationVisitsEachHostOnce(start: nat, n: nat)
    requires start < n
    ensures forall j1, j2 :: 0 <= j1 < j2 < n ==> HostSlot(start, j1, n) != HostSlot(start, j2, n)
    ensures forall h :: 0 <= h < n ==>
      SlotOffset(start, h, n) < n && HostSlot(start, SlotOffset(start, h, n), n) == h
  {
    forall j | 0 <= j < n
      ensures HostSlot(start, j, n) == if start + j < n then start + j else start + j - n
    {
      SlotWithinOneTurn(start, j, n);
    }
  }

  class RoundRobinStrategy {
    /** The host prefixes, in rotation order; never reassigned. */
    const hosts: seq<string>
    /** The transport (`@client`), whose `send(meth, url, options)` performs a request. */
    const client: Transport
    /** The cursor: the position of the host the next request goes to. */
    var index: nat

    ghost predicate Valid()
      reads this
    {
      if |hosts| == 0 then index == 0 else index < |hosts|
    }

    /** `initialize(hosts, client, options)`: the options are accepted and ignored. */
    constructor (hosts: seq<string>, client: Transport, options: StrategyOptions)
      ensures Valid()
      ensures this.hosts == hosts && this.client == client && index == 0
    {
      this.hosts := hosts;
      this.client := client;
      index := 0;
    }

    /** `next_host`: the host under the cursor; the cursor moves one place on, wrapping. */
    method NextHost() returns (h: string)
      requires Valid() && |hosts| > 0
      modifies this
      ensures Valid()
      ensures h == hosts[old(index)]
      ensures index == (old(index) + 1) % |hosts|
    {
      h := hosts[index];
      index := (index + 1) % |hosts|;
    }

    /**
     * `execute(meth, path, options)`: the begin/rescue/retry loop. Returns what
     * the call answered or raised, and every request it sent.
     */
    method Execute(verb: string, path: string, options: Options) returns (outcome: Outcome, dispatched: seq<Request>)
      requires Valid()
      modifies this
      ensures Valid()
      ensures Call(outcome, dispatched) == Execution(hosts, old(index), client, CallArgs(verb, path, options), 0)
      ensures |hosts| > 0 ==> index == HostSlot(old(index), |dispatched|, |hosts|)
      ensures |hosts| == 0 ==> index == old(index)
    {
      if |hosts| == 0 {
        // next_host computes (index + 1) % 0, which no rescue clause catches
        return Raised(ZeroDivisionError), [];
      }
      var args := CallArgs(verb, path, options);
      ghost var start := index;
      ModUnique(start, |hosts|, 0, start);
      var tries := 0;
      dispatched := [];
      while true
        invariant Valid() && tries <= |hosts|
        invariant index == HostSlot(start, tries, |hosts|)
        invariant |dispatched| == tries
        invariant Execution(hosts, start, client, args, 0)
               == var rest := Execution(hosts, start, client, args, tries);
                  Call(rest.outcome, dispatched + rest.dispatched)
        decreases |hosts| - tries
      {
        var host := NextHost();
        var request := Request(verb, host + path, options);
        assert request == RequestAt(hosts, start, args, tries);
        outcome := Attempt(client, tries, request);
        ExecutionStep(hosts, start, client, args, tries, dispatched);
        dispatched := dispatched + [request];
        if !Retries(outcome) || tries >= |hosts| {
          return;
        }
        tries := tries + 1;
      }
    }
  }

  /** A strategy class whose constructor accepts and ignores its arguments, and which has no `execute`. */
  class TimeoutableStrategy {
    constructor (hosts: seq<string>, client: Transport, options: StrategyOptions)
    {
    }
  }
}

/**
 * What callers can conclude about a RoundRobinStrategy object from the
 * contracts of its constructor and `execute` alone.
 */
module StrategyScenarios {
  import opened Wrappers
  import opened Strategies

  /** A fresh strategy sends its first request to the first host, with verb and options untouched. */
  method FirstRequestGoesToFirstHost(hosts: seq<string>, client: Transport, verb: string, path: string, options: Options)
    returns (outcome: Outcome, dispatched: seq<Request>)
    requires |hosts| > 0
    ensures |dispatched| >= 1 && dispatched[0] == Request(verb, hosts[0] + path, options)
  {
    var strategy := new RoundRobinStrategy(hosts, client, None);
    outcome, dispatched := strategy.Execute(verb, path, options);
    ExecutionSendsToConsecutiveHosts(hosts, 0, client, CallArgs(verb, path, options), 0, Call(outcome, dispatched));
  }

  /**
   * Over three hosts whose transport always answers, four consecutive calls
   * go to the first, second and third host and then to the first again.
   */
  method EachHostInTurn(h1: string, h2: string, h3: string, client: Transport, verb: string, path: string, options: Options)
    returns (first: seq<Request>, second: seq<Request>, third: seq<Request>, fourth: seq<Request>)
    requires forall r :: client(0, r).Ok?
    ensures first == [Request(verb, h1 + path, options)]
    ensures second == [Request(verb, h2 + path, options)]
    ensures third == [Request(verb, h3 + path, options)]
    ensures fourth == first
  {
    var strategy := new RoundRobinStrategy([h1, h2, h3], client, None);
    var outcome;
    outcome, first := strategy.Execute(verb, path, options);
    outcome, second := strategy.Execute(verb, path, options);
    outcome, third := strategy.Execute(verb, path, options);
    outcome, fourth := strategy.Execute(verb, path, options);
  }

  /**
   * Three hosts, the first two raising a rescued error: the call answers
   * with the third host's response after exactly three requests.
   */
  method FailsOverToThirdHost(h1: string, h2: string, h3: string, client: Transport, verb: string, path: string,
                              options: Options, e: ErrorKind, response: Response)
    returns (outcome: Outcome, dispatched: seq<Request>)
    requires IsRescued(e)
    requires client(0, Request(verb, h1 + path, options)) == Raised(e)
    requires client(1, Request(verb, h2 + path, options)) == Raised(e)
    requires client(2, Request(verb, h3 + path, options)) == Ok(response)
    ensures outcome == Ok(response)
    ensures dispatched == [Request(verb, h1 + path, options), Request(verb, h2 + path, options), Request(verb, h3 + path, options)]
  {
    var hosts := [h1, h2, h3];
    var args := CallArgs(verb, path, options);
    var strategy := new RoundRobinStrategy(hosts, client, None);
    outcome, dispatched := strategy.Execute(verb, path, options);
    assert RequestAt(hosts, 0, args, 0) == Request(verb, h1 + path, options);
    assert RequestAt(hosts, 0, args, 1) == Request(verb, h2 + path, options);
    assert RequestAt(hosts, 0, args, 2) == Request(verb, h3 + path, options);
    SucceedsAfterTransientFailures(hosts, 0, client, args, 2, response);
  }

  /**
   * Three hosts that all raise the same rescued error: the call raises that
   * error after four requests, the last of them to the first host again.
   */
  method GivesUpAfterTryingAllHosts(h1: string, h2: string, h3: string, client: Transport, verb: string, path: string,
                                    options: Options, e: ErrorKind)
    returns (outcome: Outcome, dispatched: seq<Request>)
    requires IsRescued(e)
    requires forall k, r :: client(k, r) == Raised(e)
    ensures outcome == Raised(e)
    ensures |dispatched| == 4 && dispatched[3] == dispatched[0] == Request(verb, h1 + path, options)
  {
    var hosts := [h1, h2, h3];
    var args := CallArgs(verb, path, options);
    var strategy := new RoundRobinStrategy(hosts, client, None);
    outcome, dispatched := strategy.Execute(verb, path, options);
    ExhaustsAfterEveryHostAndOneMore(hosts, 0, client, args);
    assert RequestAt(hosts, 0, args, 0) == Request(verb, h1 + path, options);
  }

  /** `SuccessfulCallsRotate`, stated for the calls a session returned. */
  lemma SessionRotates(hosts: seq<string>, start: nat, client: Transport, calls: seq<CallArgs>, rs: seq<Call>)
    requires |hosts| > 0 && rs == Session(hosts, start, client, calls)
    ensures (forall j :: 0 <= j < |calls| ==> client(0, RequestAt(hosts, start, calls[j], j)).Ok?) ==>
      forall j :: 0 <= j < |calls| ==> rs[j].dispatched == [RequestAt(hosts, start, calls[j], j)]
  {
    if forall j :: 0 <= j < |calls| ==> client(0, RequestAt(hosts, start, calls[j], j)).Ok? {
      SuccessfulCallsRotate(hosts, start, client, calls);
    }
  }

  /**
   * Consecutive `execute` calls on one strategy, in order: together they are
   * the `Session` that starts at the strategy's cursor.
   */
  method RunSession(strategy: RoundRobinStrategy, calls: seq<CallArgs>) returns (rs: seq<Call>)
    requires strategy.Valid() && |strategy.hosts| > 0
    modifies strategy
    ensures strategy.Valid()
    ensures rs == Session(strategy.hosts, old(strategy.index), strategy.client, calls)
    ensures strategy.index == SessionEnd(strategy.hosts, old(strategy.index), strategy.client, calls)
    ensures (forall j :: 0 <= j < |calls| ==>
               strategy.client(0, RequestAt(strategy.hosts, old(strategy.index), calls[j], j)).Ok?) ==>
      forall j :: 0 <= j < |calls| ==> rs[j].dispatched == [RequestAt(strategy.hosts, old(strategy.index), calls[j], j)]
  {
    ghost var start := strategy.index;
    rs := [];
    var j := 0;
    while j < |calls|
      invariant j <= |calls| && strategy.Valid()
      invariant Session(strategy.hosts, start, strategy.client, calls)
             == rs + Session(strategy.hosts, strategy.index, strategy.client, calls[j..])
      invariant SessionEnd(strategy.hosts, start, strategy.client, calls)
             == SessionEnd(strategy.hosts, strategy.index, strategy.client, calls[j..])
    {
      ghost var before := strategy.index;
      var outcome, dispatched := strategy.Execute(calls[j].verb, calls[j].path, calls[j].options);
      SlotClosedForm(before, |dispatched|, |strategy.hosts|);
      assert calls[j..][1..] == calls[j + 1..];
      rs := rs + [Call(outcome, dispatched)];
      j := j + 1;
    }
    SessionRotates(strategy.hosts, start, strategy.client, calls, rs);
  }
}
