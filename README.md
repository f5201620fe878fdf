# Synthetic monitor, modelled in Dafny

`SyntheticMonitor` runs a set of RSpec specs against a live system over and
over, with a fixed pause between runs.

- When a run has failures, it posts one Slack alert to a webhook. The alert has
  one "danger" attachment titled "ALERT: 1 test failed" or "ALERT: N tests
  failed", and one field per failed example.
- When every example passed, it posts `{"data": "all monitoring tests passed"}`
  to a success URL, but only if one is configured.
- It has two loops:
  - `monitor` sends every spec's alerts to one webhook;
  - `monitor_on_varying_slack_channels` runs the (spec, webhook) pairs of a
    Hash in order, each pair alerting its own webhook, and sleeps once per
    pass. A key names one spec or an Array of specs.
- Nothing is rescued. An exception from the check runner, from a POST or from
  `sleep` ends the loop.

The model has three modules.

- `Decimal` (decimal.dfy) is how Ruby's `"#{n}"` writes a non-negative
  Integer, with the parser that reads the numeral back.
- `Notification` (notification.dfy) holds the pure part:
  - selecting the failed examples;
  - the Slack fields and their text layout;
  - the alert title and the alert payload;
  - the pass/fail decision that says which requests a run sends.

  It also holds the alert the repository's functional test expects.
- `Monitor` (monitor.dfy) holds the imperative part:
  - A `World` object stands for everything outside the monitor. It has a clock
    in seconds, and it records a trace of events: checks started, POSTs attempted,
    sleeps completed.
  - The check runner and the HTTP outcome are parameters of the world.
    - `Env.runnerRaises(t, specs)` says whether starting RSpec on `specs` at
      time `t` raises.
    - `Env.runner(t, specs)` is the report RSpec would give otherwise.
    - `Env.rejects(t, url)` says whether a POST to `url` at time `t` raises.
  - The class `SyntheticMonitor` has one method for each Ruby method that
    acts on the world: `notify_all_tests_passed`, `handle_passing_tests`,
    `notify_on_slack`, `run`, `run_spec_slack_pairs`, `monitor` and
    `monitor_on_varying_slack_channels`.
    - These methods append to the world's trace only what the code sends or
      starts. `HandlePassingTests` with no success URL appends nothing.
    - Only a sleep moves the clock, so only the two loops advance it.
  - `to_slack_fields`, `select_failed_tests` and `all_tests_passed?` compute
    values without acting on anything. They are functions of the
    `Notification` module.
  - `NotifyAllTestsPassed`, `HandlePassingTests` and `NotifyOnSlack` state
    the events they append directly.
  - The other four are proved against a reference function on values:
    - `Run` against `RunOutcome`;
    - `RunSpecSlackPairs` against `PairsOutcome`;
    - `Monitor` and `MonitorOnVaryingSlackChannels` against `LoopOutcome`.
  - Lemmas turn each reference function into a closed form, such as "the
    events of the pairs in pair order" or "the iterations in order, the i-th
    starting i intervals after the first".

An exception is modelled as a `raised` result: the trace up to that point is
kept, and nothing after it happens. The endless `loop do … end` is bounded by a
`fuel` parameter, the largest number of iterations looked at.

Three behaviours of the code are easy to get wrong, and the model follows the
code in each.

- In multi-channel mode, a pair that raises is not isolated from the pairs
  after it. Nothing is rescued, so the exception ends the pass and the loop
  (`PairsRaised`).
- The interval is never validated:
  - a frequency of 0 loops without pausing;
  - a negative frequency makes `sleep` raise after the first run (`LoopHalts`,
    `World.Sleep`).
- The value block has one newline before the message and one after it. An
  alert still shows two on each side, because RSpec's failure message itself
  starts and ends with a newline (`FunctionalTestAlert`).

## Model

| member | source | states |
|---|---|---|
| Decimal.NatToString | lib/synthetic_monitor.rb:33 | the numeral written for a line number or failure count is non-empty, all digits, and starts with '0' only for zero |
| Decimal.DecimalRoundTrip | lib/synthetic_monitor.rb:33 | parsing the numeral of n gives back n |
| Decimal.NatToStringInjective | lib/synthetic_monitor.rb:52 | different counts are written as different numerals |
| Notification.SelectFailedTests | lib/synthetic_monitor.rb:36-38 | every selected example has status "failed", and an example is selected exactly when it is in the input and failed |
| Notification.SelectFailedTestsCounts | lib/synthetic_monitor.rb:36-38 | each failed example is kept as many times as it occurs in the input, and every other example is dropped |
| Notification.SelectFailedTestsAppend | lib/synthetic_monitor.rb:36-38 | selecting from a concatenation is the concatenation of the selections, so input order is kept |
| Notification.SelectFailedTestsIdempotent | lib/synthetic_monitor.rb:36-38 | selecting the failed examples twice gives the same result as selecting once |
| Notification.ToSlackFields | lib/synthetic_monitor.rb:32-34 | one field per example, in order; its title is the example's full description and its value is the example's failure block |
| Notification.FieldValue | lib/synthetic_monitor.rb:33 | the value block starts with a newline followed by the message, and ends with a newline and the separator line of 51 '=' |
| Notification.FieldValueParsesBack | lib/synthetic_monitor.rb:33 | parsing a field value recovers the message plus "\n# " plus the path, and the line number, exactly |
| Notification.AlertTitle | lib/synthetic_monitor.rb:52 | the title is "ALERT: 1 test failed" if and only if the count is 1; otherwise it is "ALERT: " followed by the count's numeral and " tests failed" |
| Notification.AlertTitleInjective | lib/synthetic_monitor.rb:52 | different failure counts give different titles |
| Notification.FailurePayload | lib/synthetic_monitor.rb:53-60 | the alert has exactly one attachment; its fallback and title are the alert title, its color is "danger", and its fields are those of the failed examples |
| Notification.AlertDescribesEveryFailure | lib/synthetic_monitor.rb:51-60 | for a report whose count matches its examples, the alert has as many fields as failures; each field names a failed example in order; the singular title is used exactly when one example failed |
| Notification.AllTestsPassed | lib/synthetic_monitor.rb:64-66 | a run passed when its failure count is zero; for a report whose count matches its examples, that is exactly when no example failed |
| Notification.Notifications | lib/synthetic_monitor.rb:77 | a passing run sends only the success notice, and only when a success URL is set; a failing run sends exactly one alert to the webhook |
| Notification.NotificationsExclusive | lib/synthetic_monitor.rb:77 | a request carries the success notice exactly when the run passed, so a notice and an alert are never both sent |
| Notification.FunctionalTestAlert | functional_test/functional_test.rb:15 | for one failing and one passing example, the run sends exactly the alert body the functional test expects, with two newlines before "expected" |
| Notification.FailingExampleValue | functional_test/functional_test.rb:15 | the failure block of the functional test's failing example, character for character |
| Monitor.World.RunChecks | lib/synthetic_monitor.rb:74-76 | the start of the runner is recorded as one Checked event; it raises exactly when the runner raises at the current time, and otherwise gives the runner's report; the clock does not move |
| Monitor.World.Post | lib/synthetic_monitor.rb:61 | the attempt is recorded whether or not it then raises; it raises when the world rejects that URL at that time |
| Monitor.World.Sleep | lib/synthetic_monitor.rb:85 | a negative interval raises and changes nothing; otherwise the trace gains one Slept event and the clock advances by the interval |
| Monitor.Dispatch | lib/synthetic_monitor.rb:77 | the i-th event is the i-th request; all requests go out when none raises; otherwise the last one sent is the first rejected, every earlier one succeeded, and the sending raises if and only if some request is rejected |
| Monitor.RunRouting | lib/synthetic_monitor.rb:72-79 | a run is one check followed by: nothing more, and it raises (the runner raised); no POST (pass, no success URL); the success notice (pass, URL set); or the alert to the webhook (failure); in the last two it raises exactly when that POST is rejected |
| Monitor.PairsOutcome | lib/synthetic_monitor.rb:68-70 | a pass over the pairs completes all pairs unless it raised, and then it stopped at a pair before the end |
| Monitor.PairsRaised | lib/synthetic_monitor.rb:68-70 | every completed pair ran without an exception; an early stop is caused by the pair after the completed ones raising |
| Monitor.PairsInOrder | lib/synthetic_monitor.rb:68-70 | the events of a pass are the completed pairs' runs in pair order, followed by the run that raised, if any |
| Monitor.PairsStep | lib/synthetic_monitor.rb:69 | running the i-th pair appends its run, and leaves the pairs after it still to run unless it raised |
| Monitor.LoopOutcome | lib/synthetic_monitor.rb:83-86 | a loop with fuel n completes n iterations unless it raised earlier; it completes an iteration only when the interval is non-negative |
| Monitor.LoopIterationsRaised | lib/synthetic_monitor.rb:83-86 | every completed iteration's body ran without an exception at its start time; the loop stopped only because the next body raised or the interval was negative |
| Monitor.IterationsShift | lib/synthetic_monitor.rb:83-86 | the iterations after the first are those of the same loop started one interval later |
| Monitor.LoopIterations | lib/synthetic_monitor.rb:83-86 | the loop's events are each completed iteration's body at its start time followed by its sleep, in order, then the events of the body that raised, if any |
| Monitor.LoopAdvance | lib/synthetic_monitor.rb:83-86 | after an iteration that finished its body and its sleep, the rest of the loop starts one interval later with one less fuel |
| Monitor.LoopHalts | lib/synthetic_monitor.rb:90-93 | an iteration whose body raises or whose sleep is negative is the last, with nothing after its body |
| Monitor.SpecsToRun | lib/synthetic_monitor.rb:81-82 | with no spec arguments the list is ["spec"]; otherwise it is the extra specs followed by the first, which is a permutation of the arguments |
| Monitor.SyntheticMonitor.constructor | lib/synthetic_monitor.rb:10-15 | the monitor keeps the given frequency (default 5 minutes) and success URL (default none) |
| Monitor.SyntheticMonitor.IntervalSeconds | lib/synthetic_monitor.rb:85 | the pause is a whole number of minutes, exactly the frequency, and negative exactly when the frequency is |
| Monitor.SyntheticMonitor.NotifyAllTestsPassed | lib/synthetic_monitor.rb:40-42 | POSTs the success notice to the success URL; with no URL it raises and sends nothing |
| Monitor.SyntheticMonitor.HandlePassingTests | lib/synthetic_monitor.rb:44-47 | sends the success notice exactly when a success URL is configured; otherwise it sends nothing and does not raise |
| Monitor.SyntheticMonitor.NotifyOnSlack | lib/synthetic_monitor.rb:49-62 | sends exactly one POST, the alert payload, to the webhook; it raises when that POST is rejected |
| Monitor.SyntheticMonitor.Run | lib/synthetic_monitor.rb:72-79 | the trace grows by exactly the run's reference events, it raises exactly when the reference run does, and the clock does not move |
| Monitor.SyntheticMonitor.RunSpecSlackPairs | lib/synthetic_monitor.rb:68-70 | the trace grows by exactly the reference pass over the pairs, and it raises exactly when that pass does |
| Monitor.SyntheticMonitor.Monitor | lib/synthetic_monitor.rb:81-87 | the trace grows by exactly the reference loop over the spec list and the webhook; it raises exactly when that loop does; the clock ends at the start time of the iteration where the loop stopped |
| Monitor.SyntheticMonitor.MonitorOnVaryingSlackChannels | lib/synthetic_monitor.rb:89-94 | the trace grows by exactly the reference loop whose every iteration is one pass over the pairs; it raises exactly when that loop does; the clock ends at the start time of the iteration where the loop stopped |

## Left out

- The RSpec wiring of the constructor (lib/synthetic_monitor.rb:17-29) is not modelled. It registers the JSON formatter, and the model instead takes the report from `Env.runner`. The report is required to give every failed example an exception entry, as RSpec's JSON formatter does.
- The model does not check that a report's failure count agrees with its examples. `Consistent` states that agreement, and only `AlertDescribesEveryFailure` assumes it.
- JSON serialisation, content-type headers and the HTTP transport are not modelled. A request is a `Posted(url, payload)` event holding the payload as a value, and whether it raises comes from `Env.rejects`.
- `puts` output and `$stdout.sync` are not modelled, because they are console output only.
- `RSpec.clear_examples` (lib/synthetic_monitor.rb:78) is not modelled, because the injected runner keeps no state between runs.
- Monitor.World.Post: whether a POST raises depends only on the URL and the clock, and the clock moves only in a sleep. Two POSTs to one URL within one pass therefore share an outcome: a success notice that succeeds for one passing pair cannot fail for a later pair. The same holds for every iteration at frequency 0. Monitor.World.RunChecks has the same limitation for the runner's answers. The model does not capture a POST or a run that fails after an identical earlier one succeeded in the same interval.
- The real passage of time is not modelled. `sleep` advances the world's clock by the interval, and checks and POSTs take no time.
- The loops are unbounded in the code. The model looks at most `fuel` iterations ahead, so it says nothing about behaviour after `fuel` iterations.
- The frequency is taken to be an Integer already. `.to_i` on strings and other types is not modelled.
- Both loops pause for `IntervalSeconds`, which is `60 * frequency`. Integer widths do not matter there, because Ruby Integers are unbounded.
- The spec-to-webhook Hash is a sequence of pairs in insertion order. That order is the order `each_pair` visits. Key uniqueness is not modelled, and no stated property needs it.
- A Hash key is modelled as the list of specs it names: a one-element list for a single spec, the Array's elements for an Array. How RSpec flattens `[spec]` into its argument list is not modelled.
- An exception's class and message are not modelled. Only the fact that one was raised is kept.
- Concurrency between several monitors and interrupting a sleep are not modelled. Neither exists in the code.
- The functional test's scaffolding (the Mirage mock server, retries, starting the monitor process) is not modelled. Only the alert body it expects is stated.
- `Notification.ToSlackFields` requires every example to carry an exception message. In Ruby, a selected example without one would raise `NoMethodError` inside `to_slack_fields`, and the model does not capture that crash.
