# Cottus: round-robin host selection with failover, in Dafny

Cottus is a Ruby HTTP client that spreads requests over a fixed list of
backend hosts. A strategy object keeps the list and a cursor. Each request
goes to the host under the cursor, and the cursor then moves one place on,
wrapping at the end. When the transport raises one of four network errors
(`Timeout::Error`, `ECONNREFUSED`, `ETIMEDOUT`, `ECONNRESET`), the request is
sent again to the next host. A per-call counter `tries` starts at 0, and the
error is re-raised only once `tries` has reached the number of hosts. So a
call makes at most |hosts| + 1 attempts, and when every attempt fails the
first host it tried is contacted twice. Any other error escapes after one
attempt.

This project models:

- `strategies.dfy`, module `Strategies` (lib/cottus/strategies.rb). It holds
  the error kinds and `VALID_EXCEPTIONS`. The class `RoundRobinStrategy` has
  `NextHost` and `Execute`, whose `while` loop is proved against the pure
  specification `Execution`. The predicate `IsRun` is an independent
  description of one call, and lemmas show that `Execution` is the only call
  it admits. Lemmas cover failover, exhaustion after |hosts| + 1 attempts,
  errors that are not rescued, and the rotation over consecutive calls
  (`Session`). The stub class `TimeoutableStrategy` is here too. Module
  `StrategyScenarios` restates the strategy's RSpec examples through the
  class's contracts.
- `cottus_legacy.dfy`, module `CottusLegacy` (lib/cottus.rb). This is the
  older `Client`: `parse_hosts` with the optional port suffix, its own cursor
  and `next_host`, and `get` with the same retry loop written inline.
- `client.dfy`, module `CottusClient` (lib/cottus/client.rb). This is the
  newer `Client`: `parse_hosts`, `create_strategy` (RoundRobinStrategy by
  default, `strategy_options` passed through), and the five verb methods
  that delegate to the strategy's `execute`.
- `ruby_string.dfy`, module `RubyString`. It models Ruby's
  `String#split(',')`: every comma cuts, trailing empty fields are dropped,
  and `""` splits to `[]`. It also holds the String-or-Array argument the
  parsers test with `is_a?(String)`.
- `wrappers.dfy`: an `Option` type that stands for Ruby's `nil`.

The HTTP library is a parameter, `Transport`. It is a function from the
attempt number within the current call and the request (verb, URL =
host ++ path, options) to an `Outcome`, which is `Ok(response)` or
`Raised(error)`. Every `execute`/`get` returns its outcome together with the
list of requests it sent.

Two consequences of the code are worth stating on their own:

- A call makes up to |hosts| + 1 attempts, so when every attempt fails the
  first host tried is contacted twice (`ExhaustsAfterEveryHostAndOneMore`).
- An empty host list is accepted. Every request then raises
  `ZeroDivisionError` from `(@index + 1) % 0` before anything is sent. The
  model keeps that error path; no constructor requires a non-empty list.

## Model

| member | source | states |
|---|---|---|
| `Strategies.RescuedMeansListed` | lib/cottus/strategies.rb:5-10 | an error is retried exactly when its kind is one of the four in VALID_EXCEPTIONS |
| `Strategies.HostSlot` | lib/cottus/strategies.rb:35-39 | the cursor after k moves of `next_host` is always a valid host position |
| `Strategies.SlotClosedForm` | lib/cottus/strategies.rb:37 | k moves of `index := (index + 1) mod n` from `start` land on `(start + k) mod n` |
| `Strategies.Execution` | lib/cottus/strategies.rb:18-31 | with no hosts the call raises ZeroDivisionError and sends nothing; otherwise it sends between 1 and \|hosts\| + 1 requests |
| `Strategies.ExecutionSendsToConsecutiveHosts` | lib/cottus/strategies.rb:18-39 | attempt k goes to `hosts[(cursor + k) mod n] ++ path`, with the verb and options passed unchanged |
| `Strategies.ExecutionStops` | lib/cottus/strategies.rb:19-30 | every attempt but the last raised a rescued error; the call reports the last attempt's own outcome; it stops because that outcome is not rescued or because the retry counter reached \|hosts\| |
| `Strategies.ExecutionStep` | lib/cottus/strategies.rb:21-30 | one turn of the loop: the call either stops with this attempt's outcome or continues from the next retry counter with this attempt's request recorded |
| `Strategies.ExecutionIsRun` | lib/cottus/strategies.rb:18-31 | the loop's behaviour satisfies the independent description `IsRun` |
| `Strategies.RunIsUnique` | lib/cottus/strategies.rb:18-31 | `IsRun` admits at most one call for given hosts, cursor, transport and arguments |
| `Strategies.ExecutionIsTheRun` | lib/cottus/strategies.rb:18-31 | a call satisfies `IsRun` if and only if it is the loop's behaviour |
| `Strategies.SucceedsAfterTransientFailures` | lib/cottus/strategies.rb:21-29 | if the first k attempts (k ≤ \|hosts\|) raise rescued errors and attempt k answers, the call returns that response after exactly k + 1 requests to consecutive hosts |
| `Strategies.ExhaustsAfterEveryHostAndOneMore` | lib/cottus/strategies.rb:19-29 | if every attempt raises a rescued error, the call sends exactly \|hosts\| + 1 requests, the last one to the first host again, and re-raises the last error unchanged |
| `Strategies.NonRescuedErrorStopsAtOnce` | lib/cottus/strategies.rb:5-23 | an error outside VALID_EXCEPTIONS on the first attempt escapes unchanged after exactly one request |
| `Strategies.Session` | lib/cottus/strategies.rb:18-39 | consecutive calls on one strategy, one record per call, each starting where the previous call left the cursor; `StrategyScenarios.RunSession` shows that consecutive `Execute` calls produce it |
| `Strategies.SessionEnd` | lib/cottus/strategies.rb:35-39 | the cursor after consecutive calls, each moving it once per request sent, is always a valid host position |
| `Strategies.SuccessfulCallsRotate` | lib/cottus/strategies.rb:35-39 | when the first attempt of each call answers, the j-th of consecutive calls sends one request, to the host j places after the starting cursor, wrapping modulo \|hosts\| |
| `Strategies.RotationVisitsEachHostOnce` | lib/cottus/strategies.rb:36-37 | n consecutive cursor positions are pairwise distinct and every host position is among them, so n calls reach each host exactly once |
| `Strategies.RoundRobinStrategy.constructor` | lib/cottus/strategies.rb:13-16 | keeps the hosts and the transport; the cursor starts at 0; the options are ignored |
| `Strategies.RoundRobinStrategy.NextHost` | lib/cottus/strategies.rb:35-39 | returns `hosts[index]` and sets `index := (index + 1) mod \|hosts\|`, keeping `0 <= index < \|hosts\|` |
| `Strategies.RoundRobinStrategy.Execute` | lib/cottus/strategies.rb:18-31 | the outcome and requests are those of `Execution` from the old cursor; the cursor has moved on once per request sent (`HostSlot`, which `SlotClosedForm` puts as (old cursor + requests) mod \|hosts\|); the hosts never change |
| `Strategies.TimeoutableStrategy.constructor` | lib/cottus/strategies.rb:42-45 | accepts the hosts, the transport and the options and keeps none of them; the class has no `execute` (what a client does with it is in `CottusClient.Client.StrategyExecute`) |
| `StrategyScenarios.FirstRequestGoesToFirstHost` | spec/cottus/strategies_spec.rb:36-40 | a fresh strategy's first request is `hosts[0] ++ path` with the verb and options untouched |
| `StrategyScenarios.EachHostInTurn` | spec/cottus/strategies_spec.rb:42-55 | four successful calls over three hosts go to the first, second and third host, then the first again |
| `StrategyScenarios.FailsOverToThirdHost` | spec/cottus/strategies_spec.rb:60-65 | when the first two hosts raise a rescued error, the call answers with the third host's response after three requests |
| `StrategyScenarios.GivesUpAfterTryingAllHosts` | spec/cottus/strategies_spec.rb:67-71 | when all three hosts raise a rescued error, the call raises it after four requests, the fourth to the first host |
| `StrategyScenarios.RunSession` | lib/cottus/strategies.rb:18-39 | consecutive `execute` calls on one strategy return exactly the calls of `Session` from its cursor and leave the cursor at `SessionEnd`; when the first attempt of each call answers, the j-th call sends one request, to the host j places after the starting cursor, wrapping |
| `RubyString.Fields` | lib/cottus/client.rb:36 | the pieces of a string between commas: at least one, none containing the separator |
| `RubyString.DropTrailingEmpty` | lib/cottus/client.rb:36 | a prefix of the fields that ends in a non-empty field and drops only empty fields |
| `RubyString.Split` | lib/cottus/client.rb:36 | `split(',')` yields hosts without commas and without a trailing empty host |
| `RubyString.JoinFields` | lib/cottus/client.rb:36 | joining the fields of a string with the separator gives the string back |
| `RubyString.FieldsOfPrefix` | lib/cottus.rb:47 | a separator-free prefix becomes the start of the first field |
| `RubyString.FieldsOfJoin` | lib/cottus.rb:47 | cutting a join of separator-free fields gives the fields back |
| `RubyString.SplitJoin` | lib/cottus/client.rb:36 | `split` undoes a join of comma-free hosts whose last one is not empty; `"".split(',')` is `[]` |
| `RubyString.SplitDropsOnlyTrailingEmpty` | lib/cottus.rb:47 | `split` keeps the fields in order and leaves out only empty fields at the end |
| `CottusLegacy.ParseHosts` | lib/cottus.rb:46-50 | one host per listed host, in order; each is the listed host followed by `":" ++ port` when a port is given |
| `CottusLegacy.ParseHostsWithoutPort` | lib/cottus.rb:48-49 | with no port the listed hosts are returned unchanged |
| `CottusLegacy.PortIsOnlyAppended` | lib/cottus.rb:48 | with a port, each host is its listed host followed by `:` and the port, and nothing else |
| `CottusLegacy.Client.constructor` | lib/cottus.rb:11-14 | the hosts are the parsed hosts with the port; the cursor starts at 0 |
| `CottusLegacy.Client.NextHost` | lib/cottus.rb:40-44 | returns `hosts[index]` and sets `index := (index + 1) mod \|hosts\|` |
| `CottusLegacy.Client.Get` | lib/cottus.rb:16-29 | behaves as `Execution` with the verb `get` from the old cursor; the cursor has moved on once per request sent |
| `CottusClient.ParseHosts` | lib/cottus/client.rb:35-37 | an array is kept exactly; a string yields comma-free hosts with no trailing empty host |
| `CottusClient.ConnectionStringMatchesArray` | lib/cottus/client.rb:36 | a comma-joined string and the array of its hosts parse to the same hosts, in order |
| `CottusClient.ThreeHostConnectionString` | spec/cottus/client_spec.rb:13-15 | `'host1:1255,host2:1255,host3:1255'` parses to the three hosts in order |
| `CottusClient.LegacyParserAgreesWithoutPort` | lib/cottus/client.rb:35-37 | without a port, the older parser gives the same hosts as the newer one |
| `CottusClient.CreateStrategy` | lib/cottus/client.rb:43-45 | RoundRobinStrategy when no `:strategy` is given, the given class otherwise; built from the parsed hosts with `strategy_options` passed on verbatim |
| `CottusClient.Client.constructor` | lib/cottus/client.rb:8-11 | the hosts are the parsed hosts; the strategy is an object of the class `CreateStrategy` picks; a round-robin strategy is fresh, on the same hosts, with its cursor at 0 |
| `CottusClient.Client.StrategyExecute` | lib/cottus/client.rb:14 | a round-robin strategy runs `Execution` from its cursor and advances the cursor; TimeoutableStrategy has no `execute`, so the call raises NoMethodError and sends nothing |
| `CottusClient.Client.Get` | lib/cottus/client.rb:13-15 | delegates to the strategy's `execute` with the verb `get`, path and options unchanged |
| `CottusClient.Client.Post` | lib/cottus/client.rb:17-19 | delegates with the verb `post`, path and options unchanged |
| `CottusClient.Client.Put` | lib/cottus/client.rb:21-23 | delegates with the verb `put`, path and options unchanged |
| `CottusClient.Client.Head` | lib/cottus/client.rb:25-27 | delegates with the verb `head`, path and options unchanged |
| `CottusClient.Client.Patch` | lib/cottus/client.rb:29-31 | delegates with the verb `patch`, path and options unchanged |

## Left out

- The HTTP library (HTTParty) and the network are not modelled. They are the `Transport` parameter, and responses are opaque.
- The transport is fixed for the lifetime of a strategy or client and answers as a function of the attempt number within the call and the request. The network therefore cannot change between calls: two calls with the same arguments that reach the same host at the same attempt number get the same outcome, so a host that fails in one call and recovers by a later one is not expressed.
- lib/cottus/connection.rb and lib/cottus/forward.rb (per-host connection objects and generated verb methods) are not part of this model. The round-robin strategy does not use them.
- Ruby's `rescue` also catches subclasses of the listed exception classes (for example `Net::OpenTimeout < Timeout::Error`). The model's error kinds are flat, so such a subclass would be written as one of the four kinds.
- A `:strategy` option naming an arbitrary object (a test double, or a user class) is not modelled. `StrategyClass` is closed over the two classes in lib/cottus/strategies.rb.
- The base `Strategy` class that raises NotImplementedError is not defined in any file modelled here.
- The `:port` option is modelled as the text that `"#{port}"` produces. Ruby's `to_s` of an integer port is not modelled.
- A host argument that is neither a String nor an Array (`nil`, say) is not modelled. lib/cottus/client.rb:36 would keep it as the host list, and the first request would then fail; `StringOrArray` has only the two cases the parsers test for.
- Blocks (`&block`) passed through to the transport are not modelled.
- Calls are sequential. The code has no lock around the cursor, and concurrent calls are not modelled.
- The older client's private copy of VALID_EXCEPTIONS (lib/cottus.rb:33-38) has the same four kinds. The model uses the single list in `Strategies`.
- `RubyString.Split` models `split` with a one-character separator other than a space, which is the only way the code calls it.
