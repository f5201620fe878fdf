/** The monitor itself: running the checks, notifying, and the two endless
    loops (one webhook for all specs, or one webhook per group of specs), with the
    outside world (the check runner, HTTP and the clock) as an object that
    records what happens to it. */
module Monitor {
  import opened Notification

  /** What the outside world sees of the monitor, in order. */
  datatype Event =
    | Checked(specs: seq<string>)          // the check runner is started on these specs
    | Posted(url: string, payload: Payload) // one HTTP POST with a JSON body
    | Slept(seconds: int)                   // one completed sleep

  /** A run result as RSpec reports it: every failed example has an exception. */
  type Report = r: RunResult | FailuresExplained(r.examples) witness RunResult(0, [])

  /** The parts of the world the monitor cannot see into: whether the check
      runner raises for some specs at a given time (whatever makes
      `RSpec::Core::Runner.run` raise), the report it gives otherwise, and
      whether a POST to a URL at a given time raises (connection refused,
      timeout, non-2xx status). */
  datatype Env = Env(
    runnerRaises: (nat, seq<string>) -> bool,
    runner: (nat, seq<string>) -> Report,
    rejects: (nat, string) -> bool)

  /** The world the monitor acts on: the clock, in seconds, and the trace of
      what the monitor did to it. */
  class World {
    const env: Env
    var clock: nat
    var trace: seq<Event>

    constructor (env: Env)
      ensures this.env == env && clock == 0 && trace == []
    {
      this.env := env;
      clock := 0;
      trace := [];
    }

    /** Starts the check runner on the specs; checks take no time on this
        clock. When the runner raises there is no report. */
    method RunChecks(specs: seq<string>) returns (result: Report, raised: bool)
      modifies this
      ensures raised == env.runnerRaises(old(clock), specs)
      ensures !raised ==> result == env.runner(old(clock), specs)
      ensures trace == old(trace) + [Checked(specs)] && clock == old(clock)
    {
      trace := trace + [Checked(specs)];
      raised := env.runnerRaises(clock, specs);
      result := if raised then RunResult(0, []) else env.runner(clock, specs);
    }

    /** Attempts a POST; the attempt is recorded whether or not it then raises. */
    method Post(url: string, payload: Payload) returns (raised: bool)
      modifies this
      ensures trace == old(trace) + [Posted(url, payload)] && clock == old(clock)
      ensures raised == env.rejects(old(clock), url)
    {
      trace := trace + [Posted(url, payload)];
      raised := env.rejects(clock, url);
    }

    /** Sleeps; a negative interval raises ArgumentError and nothing happens. */
    method Sleep(seconds: int) returns (raised: bool)
      modifies this
      ensures raised <==> seconds < 0
      ensures raised ==> trace == old(trace) && clock == old(clock)
      ensures !raised ==> trace == old(trace) + [Slept(seconds)] && clock == old(clock) + seconds
    {
      raised := seconds < 0;
      if !raised {
        trace := trace + [Slept(seconds)];
        clock := clock + seconds;
      }
    }
  }

  // ---------------------------------------------------------------------------
  // Reference semantics: what one run, one pass over the pairs and the loops
  // add to the trace, and whether they end in an exception.

  /** The events of a step and whether it ended by raising. */
  datatype Outcome = Outcome(events: seq<Event>, raised: bool)

  /** The events of a repeated step, how many repetitions finished without
      raising, and whether the next one raised. */
  datatype Progress = Progress(events: seq<Event>, done: nat, raised: bool)

  function Concat(ss: seq<seq<Event>>): (s: seq<Event>)
    decreases |ss|
  {
    if ss == [] then [] else ss[0] + Concat(ss[1..])
  }

  /** Regrouping a concatenation; the closed-form lemmas below name the
      grouping they need. */
  lemma AppendAssociative(a: seq<Event>, b: seq<Event>, c: seq<Event>)
    ensures a + (b + c) == (a + b) + c
  {
  }

  /** Sends the posts in order; the first one that raises ends the sending. */
  function Dispatch(env: Env, t: nat, posts: seq<Post>): (o: Outcome)
    ensures |o.events| <= |posts|
    ensures forall i :: 0 <= i < |o.events| ==> o.events[i] == Posted(posts[i].url, posts[i].payload)
    ensures !o.raised ==> |o.events| == |posts|
    ensures o.raised ==>
      && 0 < |o.events| && env.rejects(t, posts[|o.events| - 1].url)
      && forall i :: 0 <= i < |o.events| - 1 ==> !env.rejects(t, posts[i].url)
    ensures o.raised <==> exists i :: 0 <= i < |posts| && env.rejects(t, posts[i].url)
    decreases |posts|
  {
    if posts == [] then Outcome([], false)
    else if env.rejects(t, posts[0].url) then Outcome([Posted(posts[0].url, posts[0].payload)], true)
    else
      var rest := Dispatch(env, t, posts[1..]);
      assert forall i :: 1 <= i < |posts| ==> posts[i] == posts[1..][i - 1];
      Outcome([Posted(posts[0].url, posts[0].payload)] + rest.events, rest.raised)
  }

  /** One run at time t: run the specs, then notify, unless the runner raised. */
  function RunOutcome(env: Env, t: nat, specs: seq<string>, webhook: string, successUrl: Option<string>): (o: Outcome) {
    if env.runnerRaises(t, specs) then Outcome([Checked(specs)], true)
    else
      var d := Dispatch(env, t, Notifications(env.runner(t, specs), webhook, successUrl));
      Outcome([Checked(specs)] + d.events, d.raised)
  }

  /** A run is the check, then at most one POST: nothing when the runner
      raised, on a pass the success notice when a success URL is configured,
      on a failure the alert to the webhook and nothing to the success URL. */
  lemma RunRouting(env: Env, t: nat, specs: seq<string>, webhook: string, successUrl: Option<string>)
    ensures var result := env.runner(t, specs);
      var o := RunOutcome(env, t, specs, webhook, successUrl);
      && (env.runnerRaises(t, specs) ==> o.events == [Checked(specs)] && o.raised)
      && (!env.runnerRaises(t, specs) && AllTestsPassed(result) && successUrl.None? ==>
            o.events == [Checked(specs)] && !o.raised)
      && (!env.runnerRaises(t, specs) && AllTestsPassed(result) && successUrl.Some? ==>
            o.events == [Checked(specs), Posted(successUrl.value, SuccessData(SuccessMarker))]
            && o.raised == env.rejects(t, successUrl.value))
      && (!env.runnerRaises(t, specs) && !AllTestsPassed(result) ==>
            o.events == [Checked(specs), Posted(webhook, FailurePayload(result))]
            && o.raised == env.rejects(t, webhook))
  {
    var result := env.runner(t, specs);
    var posts := Notifications(result, webhook, successUrl);
    if |posts| == 1 {
      assert posts[1..] == [];
    }
  }

  /** `run spec, url` for one (specs, webhook) pair at time t. */
  function PairRunner(env: Env, t: nat, successUrl: Option<string>): (run: ((seq<string>, string)) -> Outcome) {
    (pair: (seq<string>, string)) => RunOutcome(env, t, pair.0, pair.1, successUrl)
  }

  /** Each pair is run with `run`, in order, until one raises. */
  function PairsOutcome(run: ((seq<string>, string)) -> Outcome, pairs: seq<(seq<string>, string)>): (p: Progress)
    ensures p.done <= |pairs|
    ensures p.raised ==> p.done < |pairs|
    ensures !p.raised ==> p.done == |pairs|
    decreases |pairs|
  {
    if pairs == [] then Progress([], 0, false)
    else
      var r := run(pairs[0]);
      if r.raised then Progress(r.events, 0, true)
      else
        var rest := PairsOutcome(run, pairs[1..]);
        Progress(r.events + rest.events, 1 + rest.done, rest.raised)
  }

  /** In one pass over the pairs, every run before the last finished without
      an exception, and the pass ended early only because the last one raised.
      With `PairRunner`, the i-th run checks the i-th spec and notifies the
      i-th webhook. */
  lemma {:induction false} PairsRaised(run: ((seq<string>, string)) -> Outcome, pairs: seq<(seq<string>, string)>)
    ensures var p := PairsOutcome(run, pairs);
      && (forall i :: 0 <= i < p.done ==> !run(pairs[i]).raised)
      && (p.raised ==> run(pairs[p.done]).raised)
    decreases |pairs|
  {
    if pairs != [] && !run(pairs[0]).raised {
      PairsRaised(run, pairs[1..]);
    }
  }

  /** The events of one pass are those of the runs of the pairs, in pair order,
      ending with the run that raised, if one did. */
  lemma {:induction false} PairsInOrder(run: ((seq<string>, string)) -> Outcome, pairs: seq<(seq<string>, string)>)
    ensures var p := PairsOutcome(run, pairs);
      p.events
      == Concat(seq(p.done, i requires 0 <= i < p.done => run(pairs[i]).events))
         + (if p.raised then run(pairs[p.done]).events else [])
    decreases |pairs|
  {
    var p := PairsOutcome(run, pairs);
    if pairs != [] && !run(pairs[0]).raised {
      var rest := PairsOutcome(run, pairs[1..]);
      PairsInOrder(run, pairs[1..]);
      var all := seq(p.done, i requires 0 <= i < p.done => run(pairs[i]).events);
      var later := seq(rest.done, i requires 0 <= i < rest.done => run(pairs[1..][i]).events);
      assert all[1..] == later;
      assert Concat(all) == all[0] + Concat(later);
      var tail := if rest.raised then run(pairs[1..][rest.done]).events else [];
      assert p.events == all[0] + rest.events;
      AppendAssociative(all[0], Concat(later), tail);
    }
  }

  /** Running the i-th pair appends its run to the trace and leaves the
      pairs after it to come, unless it raises. */
  lemma PairsStep(run: ((seq<string>, string)) -> Outcome, pairs: seq<(seq<string>, string)>, i: nat,
                  origin: seq<Event>, total: Progress, before: seq<Event>)
    requires i < |pairs|
    requires origin + total.events == before + PairsOutcome(run, pairs[i..]).events
    requires total.raised == PairsOutcome(run, pairs[i..]).raised
    ensures run(pairs[i]).raised ==> origin + total.events == before + run(pairs[i]).events && total.raised
    ensures !run(pairs[i]).raised ==>
      && origin + total.events == before + run(pairs[i]).events + PairsOutcome(run, pairs[i + 1..]).events
      && total.raised == PairsOutcome(run, pairs[i + 1..]).raised
  {
    assert pairs[i..][0] == pairs[i] && pairs[i..][1..] == pairs[i + 1..];
  }

  // ---------------------------------------------------------------------------
  // The loops

  /** How the specs of an iteration are routed to webhooks. */
  datatype Routing =
    | SingleChannel(specs: seq<string>, webhook: string)
    | PerPair(pairs: seq<(seq<string>, string)>)

  /** The checks-and-notify part of a loop iteration starting at time t. */
  function IterationBody(env: Env, routing: Routing, successUrl: Option<string>): (body: nat -> Outcome) {
    (t: nat) =>
      match routing
      case SingleChannel(specs, webhook) => RunOutcome(env, t, specs, webhook, successUrl)
      case PerPair(pairs) =>
        var p := PairsOutcome(PairRunner(env, t, successUrl), pairs);
        Outcome(p.events, p.raised)
  }

  /** When the i-th iteration starts, the clock having started at t. */
  function IterationStart(t: nat, seconds: int, i: nat): (start: nat)
    requires i == 0 || seconds >= 0
  {
    if i == 0 then t else IterationStart(t, seconds, i - 1) + seconds
  }

  lemma {:induction false} IterationStartShift(t: nat, seconds: int, i: nat)
    requires seconds >= 0
    ensures IterationStart(t + seconds, seconds, i) == IterationStart(t, seconds, i + 1)
    decreases i
  {
    if i > 0 {
      IterationStartShift(t, seconds, i - 1);
    }
  }

  /** At most `fuel` iterations, from time t, of: `body`, then sleep. */
  function LoopOutcome(body: nat -> Outcome, t: nat, seconds: int, fuel: nat): (p: Progress)
    ensures p.done <= fuel
    ensures p.raised ==> p.done < fuel
    ensures !p.raised ==> p.done == fuel
    ensures p.done > 0 ==> seconds >= 0
    decreases fuel
  {
    if fuel == 0 then Progress([], 0, false)
    else
      var b := body(t);
      if b.raised || seconds < 0 then Progress(b.events, 0, true)
      else
        var rest := LoopOutcome(body, t + seconds, seconds, fuel - 1);
        Progress(b.events + [Slept(seconds)] + rest.events, 1 + rest.done, rest.raised)
  }

  /** The iterations of a loop that finished all ran their body without an
      exception, the i-th starting i intervals after the first; the first
      exception, from the body or from a negative sleep, ends the loop. */
  lemma {:induction false} LoopIterationsRaised(body: nat -> Outcome, t: nat, seconds: int, fuel: nat)
    ensures var p := LoopOutcome(body, t, seconds, fuel);
      && (forall i :: 0 <= i < p.done ==> !body(IterationStart(t, seconds, i)).raised)
      && (p.raised ==> body(IterationStart(t, seconds, p.done)).raised || seconds < 0)
    decreases fuel
  {
    var p := LoopOutcome(body, t, seconds, fuel);
    if fuel > 0 && !body(t).raised && seconds >= 0 {
      var rest := LoopOutcome(body, t + seconds, seconds, fuel - 1);
      LoopIterationsRaised(body, t + seconds, seconds, fuel - 1);
      forall i | 1 <= i < p.done
        ensures !body(IterationStart(t, seconds, i)).raised
      {
        IterationStartShift(t, seconds, i - 1);
      }
      IterationStartShift(t, seconds, rest.done);
    }
  }

  /** The events of the first n iterations of a loop started at time t, one
      sequence per iteration: the body's events at its start time, then the
      sleep. */
  function Iterations(body: nat -> Outcome, t: nat, seconds: int, n: nat): (ss: seq<seq<Event>>)
    requires n <= 1 || seconds >= 0
    ensures |ss| == n
  {
    seq(n, i requires 0 <= i < n => body(IterationStart(t, seconds, i)).events + [Slept(seconds)])
  }

  /** The iterations after the first are those of the loop started one
      interval later. */
  lemma IterationsShift(body: nat -> Outcome, t: nat, seconds: int, n: nat)
    requires seconds >= 0
    ensures Iterations(body, t, seconds, n + 1)[1..] == Iterations(body, t + seconds, seconds, n)
  {
    var all := Iterations(body, t, seconds, n + 1);
    var later := Iterations(body, t + seconds, seconds, n);
    forall i | 0 <= i < n
      ensures all[1..][i] == later[i]
    {
      IterationStartShift(t, seconds, i);
    }
  }

  /** A loop's events are its iterations in order, followed by the events of
      the iteration that raised, if one did. */
  lemma {:induction false} LoopIterations(body: nat -> Outcome, t: nat, seconds: int, fuel: nat)
    ensures var p := LoopOutcome(body, t, seconds, fuel);
      p.events
      == Concat(Iterations(body, t, seconds, p.done))
         + (if p.raised then body(IterationStart(t, seconds, p.done)).events else [])
    decreases fuel
  {
    var p := LoopOutcome(body, t, seconds, fuel);
    if fuel > 0 && !body(t).raised && seconds >= 0 {
      var rest := LoopOutcome(body, t + seconds, seconds, fuel - 1);
      LoopIterations(body, t + seconds, seconds, fuel - 1);
      IterationStartShift(t, seconds, rest.done);
      var all := Iterations(body, t, seconds, p.done);
      var later := Iterations(body, t + seconds, seconds, rest.done);
      IterationsShift(body, t, seconds, rest.done);
      assert Concat(all) == all[0] + Concat(later);
      var tail := if rest.raised then body(IterationStart(t + seconds, seconds, rest.done)).events else [];
      assert IterationStart(t, seconds, 0) == t;
      assert all[0] == body(t).events + [Slept(seconds)];
      assert p.events == all[0] + rest.events;
      AppendAssociative(all[0], Concat(later), tail);
    }
  }

  /** One completed iteration followed by the rest of the loop: appending the
      iteration's events to a trace leaves the rest of the loop to come. */
  lemma LoopAdvance(body: nat -> Outcome, t: nat, seconds: int, fuel: nat, before: seq<Event>, after: seq<Event>)
    requires fuel > 0 && !body(t).raised && seconds >= 0
    requires after == before + body(t).events + [Slept(seconds)]
    ensures var p := LoopOutcome(body, t, seconds, fuel);
      var rest := LoopOutcome(body, t + seconds, seconds, fuel - 1);
      before + p.events == after + rest.events && p.raised == rest.raised && p.done == 1 + rest.done
  {
  }

  /** An iteration that raises, in its body or in its sleep, is the last. */
  lemma LoopHalts(body: nat -> Outcome, t: nat, seconds: int, fuel: nat, before: seq<Event>, after: seq<Event>)
    requires fuel > 0 && (body(t).raised || seconds < 0)
    requires after == before + body(t).events
    ensures var p := LoopOutcome(body, t, seconds, fuel);
      before + p.events == after && p.raised && p.done == 0
  {
  }

  // The loop methods hide every definition (`hide *`) so that a run's
  // notification payload is not unfolded into their proofs; these lemmas
  // hand them, one fact each, the definitions they still need.

  lemma IterationStartNext(t0: nat, seconds: int, n: nat, t: nat)
    requires seconds >= 0 && t == IterationStart(t0, seconds, n)
    ensures IterationStart(t0, seconds, n + 1) == t + seconds
  {
  }

  lemma IterationStartZero(t: nat, seconds: int)
    ensures IterationStart(t, seconds, 0) == t
  {
  }

  lemma LoopExhausted(body: nat -> Outcome, t: nat, seconds: int)
    ensures LoopOutcome(body, t, seconds, 0) == Progress([], 0, false)
  {
  }

  lemma SingleChannelBody(env: Env, specs: seq<string>, webhook: string, successUrl: Option<string>, t: nat)
    ensures IterationBody(env, SingleChannel(specs, webhook), successUrl)(t) == RunOutcome(env, t, specs, webhook, successUrl)
  {
  }

  lemma PerPairBody(env: Env, pairs: seq<(seq<string>, string)>, successUrl: Option<string>, t: nat)
    ensures var p := PairsOutcome(PairRunner(env, t, successUrl), pairs);
      IterationBody(env, PerPair(pairs), successUrl)(t) == Outcome(p.events, p.raised)
  {
  }

  /** The spec list of `monitor`: with no spec arguments the default "spec";
      otherwise the extra specs followed by the first one. */
  function SpecsToRun(specArgs: seq<string>): (r: seq<string>)
    ensures |specArgs| == 0 ==> r == ["spec"]
    ensures |specArgs| > 0 ==> |r| == |specArgs| && r[|r| - 1] == specArgs[0] && r[..|r| - 1] == specArgs[1..]
    ensures |specArgs| > 0 ==> multiset(r) == multiset(specArgs)
  {
    if |specArgs| == 0 then ["spec"]
    else
      assert specArgs == [specArgs[0]] + specArgs[1..];
      specArgs[1..] + [specArgs[0]]
  }

  // ---------------------------------------------------------------------------
  // The monitor object

  class SyntheticMonitor {
    const frequencyInMinutes: int
    const successNotificationsUrl: Option<string>
    const world: World

    /** The frequency defaults to 5 minutes and the success URL to none. */
    constructor (world: World, frequencyInMinutes: int := 5, successNotificationsUrl: Option<string> := None)
      ensures this.world == world
      ensures this.frequencyInMinutes == frequencyInMinutes
      ensures this.successNotificationsUrl == successNotificationsUrl
    {
      this.world := world;
      this.frequencyInMinutes := frequencyInMinutes;
      this.successNotificationsUrl := successNotificationsUrl;
    }

    /** The pause between iterations, in seconds: a whole number of minutes,
        negative exactly when the frequency is. */
    function IntervalSeconds(): (seconds: int)
      ensures seconds % 60 == 0 && seconds / 60 == frequencyInMinutes
      ensures seconds < 0 <==> frequencyInMinutes < 0
    {
      60 * frequencyInMinutes
    }

    /** POSTs the success notice; with no URL the HTTP client raises before
        sending anything. */
    method NotifyAllTestsPassed() returns (raised: bool)
      modifies world
      ensures world.clock == old(world.clock)
      ensures successNotificationsUrl.None? ==> raised && world.trace == old(world.trace)
      ensures successNotificationsUrl.Some? ==>
        && world.trace == old(world.trace) + [Posted(successNotificationsUrl.value, SuccessData(SuccessMarker))]
        && raised == world.env.rejects(old(world.clock), successNotificationsUrl.value)
    {
      if successNotificationsUrl.None? {
        raised := true;
      } else {
        raised := world.Post(successNotificationsUrl.value, SuccessData(SuccessMarker));
      }
    }

    /** On a pass: the success notice, only when a success URL is configured. */
    method HandlePassingTests() returns (raised: bool)
      modifies world
      ensures world.clock == old(world.clock)
      ensures successNotificationsUrl.None? ==> !raised && world.trace == old(world.trace)
      ensures successNotificationsUrl.Some? ==>
        && world.trace == old(world.trace) + [Posted(successNotificationsUrl.value, SuccessData(SuccessMarker))]
        && raised == world.env.rejects(old(world.clock), successNotificationsUrl.value)
    {
      raised := false;
      if successNotificationsUrl.Some? {
        raised := NotifyAllTestsPassed();
      }
    }

    /** On a failure: one alert POST to the webhook. */
    method NotifyOnSlack(result: RunResult, slackWebhookUrl: string) returns (raised: bool)
      requires FailuresExplained(result.examples)
      modifies world
      ensures world.clock == old(world.clock)
      ensures world.trace == old(world.trace) + [Posted(slackWebhookUrl, FailurePayload(result))]
      ensures raised == world.env.rejects(old(world.clock), slackWebhookUrl)
    {
      var payload := FailurePayload(result);
      raised := world.Post(slackWebhookUrl, payload);
    }

    /** Runs the specs, then notifies the outcome. */
    method Run(specs: seq<string>, slackWebhookUrl: string) returns (raised: bool)
      modifies world
      ensures world.clock == old(world.clock)
      ensures var o := RunOutcome(world.env, old(world.clock), specs, slackWebhookUrl, successNotificationsUrl);
        world.trace == old(world.trace) + o.events && raised == o.raised
    {
      var result;
      result, raised := world.RunChecks(specs);
      if !raised {
        if AllTestsPassed(result) {
          raised := HandlePassingTests();
        } else {
          raised := NotifyOnSlack(result, slackWebhookUrl);
        }
      }
      RunRouting(world.env, old(world.clock), specs, slackWebhookUrl, successNotificationsUrl);
    }

    /** Runs each (specs, webhook) pair in order; an exception ends the pass.
        A Hash key names one spec or an Array of them; either way it is the
        list of specs the runner is started on. */
    method RunSpecSlackPairs(pairs: seq<(seq<string>, string)>) returns (raised: bool)
      modifies world
      ensures world.clock == old(world.clock)
      ensures var p := PairsOutcome(PairRunner(world.env, old(world.clock), successNotificationsUrl), pairs);
        world.trace == old(world.trace) + p.events && raised == p.raised
    {
      ghost var run := PairRunner(world.env, world.clock, successNotificationsUrl);
      ghost var total := PairsOutcome(run, pairs);
      var i := 0;
      raised := false;
      while i < |pairs|
        invariant 0 <= i <= |pairs|
        invariant world.clock == old(world.clock)
        invariant var rest := PairsOutcome(run, pairs[i..]);
          old(world.trace) + total.events == world.trace + rest.events && total.raised == rest.raised
      {
        ghost var before := world.trace;
        PairsStep(run, pairs, i, old(world.trace), total, before);
        raised := Run(pairs[i].0, pairs[i].1);
        if raised {
          return;
        }
        i := i + 1;
      }
    }

    /** `monitor`: every iteration runs the spec list against one webhook, then
        sleeps; `specArgs` are the spec arguments before the webhook URL and
        `fuel` bounds the otherwise endless loop. */
    method Monitor(specArgs: seq<string>, slackWebhookUrl: string, fuel: nat) returns (raised: bool)
      modifies world
      ensures var p := LoopOutcome(IterationBody(world.env, SingleChannel(SpecsToRun(specArgs), slackWebhookUrl), successNotificationsUrl),
                                   old(world.clock), IntervalSeconds(), fuel);
        && world.trace == old(world.trace) + p.events
        && raised == p.raised
        && world.clock == IterationStart(old(world.clock), IntervalSeconds(), p.done)
    {
      hide *;
      var specs := if |specArgs| == 0 then "spec" else specArgs[0];
      var additionalSpecs := if |specArgs| == 0 then [] else specArgs[1..];
      additionalSpecs := additionalSpecs + [specs];
      var specsToRun := additionalSpecs;
      assert specsToRun == SpecsToRun(specArgs);
      var seconds := IntervalSeconds();
      IterationStartZero(world.clock, seconds);
      ghost var body := IterationBody(world.env, SingleChannel(specsToRun, slackWebhookUrl), successNotificationsUrl);
      ghost var total := LoopOutcome(body, world.clock, seconds, fuel);
      var remaining: nat := fuel;
      raised := false;
      while remaining > 0
        invariant remaining <= fuel
        invariant remaining < fuel ==> seconds >= 0
        invariant world.clock == IterationStart(old(world.clock), seconds, fuel - remaining)
        invariant var rest := LoopOutcome(body, world.clock, seconds, remaining);
          && old(world.trace) + total.events == world.trace + rest.events
          && total.raised == rest.raised && total.done == fuel - remaining + rest.done
      {
        ghost var t := world.clock;
        ghost var before := world.trace;
        raised := Run(specsToRun, slackWebhookUrl);
        SingleChannelBody(world.env, specsToRun, slackWebhookUrl, successNotificationsUrl, t);
        if raised {
          LoopHalts(body, t, seconds, remaining, before, world.trace);
          return;
        }
        raised := world.Sleep(seconds);
        if raised {
          LoopHalts(body, t, seconds, remaining, before, world.trace);
          return;
        }
        LoopAdvance(body, t, seconds, remaining, before, world.trace);
        IterationStartNext(old(world.clock), seconds, fuel - remaining, t);
        remaining := remaining - 1;
      }
      LoopExhausted(body, world.clock, seconds);
    }

    /** `monitor_on_varying_slack_channels`: every iteration runs all pairs, then
        sleeps once; `fuel` bounds the otherwise endless loop. */
    method MonitorOnVaryingSlackChannels(pairs: seq<(seq<string>, string)>, fuel: nat) returns (raised: bool)
      modifies world
      ensures var p := LoopOutcome(IterationBody(world.env, PerPair(pairs), successNotificationsUrl),
                                   old(world.clock), IntervalSeconds(), fuel);
        && world.trace == old(world.trace) + p.events
        && raised == p.raised
        && world.clock == IterationStart(old(world.clock), IntervalSeconds(), p.done)
    {
      var seconds := IntervalSeconds();
      hide *;
      IterationStartZero(world.clock, seconds);
      ghost var body := IterationBody(world.env, PerPair(pairs), successNotificationsUrl);
      ghost var total := LoopOutcome(body, world.clock, seconds, fuel);
      var remaining: nat := fuel;
      raised := false;
      while remaining > 0
        invariant remaining <= fuel
        invariant remaining < fuel ==> seconds >= 0
        invariant world.clock == IterationStart(old(world.clock), seconds, fuel - remaining)
        invariant var rest := LoopOutcome(body, world.clock, seconds, remaining);
          && old(world.trace) + total.events == world.trace + rest.events
          && total.raised == rest.raised && total.done == fuel - remaining + rest.done
      {
        ghost var t := world.clock;
        ghost var before := world.trace;
        raised := RunSpecSlackPairs(pairs);
        PerPairBody(world.env, pairs, successNotificationsUrl, t);
        if raised {
          LoopHalts(body, t, seconds, remaining, before, world.trace);
          return;
        }
        raised := world.Sleep(seconds);
        if raised {
          LoopHalts(body, t, seconds, remaining, before, world.trace);
          return;
        }
        LoopAdvance(body, t, seconds, remaining, before, world.trace);
        IterationStartNext(old(world.clock), seconds, fuel - remaining, t);
        remaining := remaining - 1;
      }
      LoopExhausted(body, world.clock, seconds);
    }
  }
}
