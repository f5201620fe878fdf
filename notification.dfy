/** What one check run turns into: the failed examples it selects, the Slack
    fields it formats for them, the alert title, the failure payload, and the
    decision between the failure alert and the optional success notice. */
module Notification {
  import opened Decimal

  datatype Option<T> = None | Some(value: T)

  /** One entry of the "examples" list of RSpec's JSON report. `exception` holds
      the exception's message and is None when the report has no exception
      entry (RSpec writes one for every failed example). */
  datatype Example = Example(
    status: string,
    fullDescription: string,
    exception: Option<string>,
    filePath: string,
    lineNumber: nat)

  /** The part of RSpec's JSON report the monitor reads: summary.failure_count
      and the examples, in run order. */
  datatype RunResult = RunResult(failureCount: nat, examples: seq<Example>)

  datatype Field = Field(title: string, value: string)

  datatype Attachment = Attachment(fallback: string, color: string, title: string, fields: seq<Field>)

  /** The two JSON bodies the monitor posts: {"attachments": [...]} and {"data": ...}. */
  datatype Payload = SlackMessage(attachments: seq<Attachment>) | SuccessData(data: string)

  datatype Post = Post(url: string, payload: Payload)

  const Separator := "==================================================="
  const Footer := "\n" + Separator
  const SuccessMarker := "all monitoring tests passed"
  const SingleFailureTitle := "ALERT: 1 test failed"

  predicate IsFailed(e: Example) {
    e.status == "failed"
  }

  /** Every failed example carries an exception entry. */
  predicate FailuresExplained(xs: seq<Example>) {
    forall e :: e in xs && IsFailed(e) ==> e.exception.Some?
  }

  /** The summary's failure count agrees with the examples. */
  predicate Consistent(result: RunResult) {
    result.failureCount == |SelectFailedTests(result.examples)|
  }

  // ---------------------------------------------------------------------------
  // select_failed_tests

  /** The examples whose status is "failed", in their original order. */
  function SelectFailedTests(xs: seq<Example>): (r: seq<Example>)
    ensures forall i :: 0 <= i < |r| ==> IsFailed(r[i])
    ensures forall e :: e in r <==> e in xs && IsFailed(e)
    decreases |xs|
  {
    if xs == [] then []
    else
      assert xs == [xs[0]] + xs[1..];
      (if IsFailed(xs[0]) then [xs[0]] else []) + SelectFailedTests(xs[1..])
  }

  /** Selection keeps every failed example as often as it occurs, and nothing else. */
  lemma {:induction false} SelectFailedTestsCounts(xs: seq<Example>, e: Example)
    ensures multiset(SelectFailedTests(xs))[e] == if IsFailed(e) then multiset(xs)[e] else 0
    decreases |xs|
  {
    if xs != [] {
      var x, rest := xs[0], SelectFailedTests(xs[1..]);
      SelectFailedTestsCounts(xs[1..], e);
      assert multiset(xs)[e] == multiset([x])[e] + multiset(xs[1..])[e] by {
        assert xs == [x] + xs[1..];
      }
      if IsFailed(x) {
        assert SelectFailedTests(xs) == [x] + rest;
      } else {
        assert SelectFailedTests(xs) == rest;
        assert IsFailed(e) ==> e != x;
      }
    }
  }

  /** Selection distributes over concatenation: the order of the input is kept. */
  lemma {:induction false} SelectFailedTestsAppend(a: seq<Example>, b: seq<Example>)
    ensures SelectFailedTests(a + b) == SelectFailedTests(a) + SelectFailedTests(b)
    decreases |a|
  {
    if a != [] {
      assert (a + b)[1..] == a[1..] + b;
      SelectFailedTestsAppend(a[1..], b);
    } else {
      assert a + b == b;
    }
  }

  /** Selecting twice selects nothing more. */
  lemma {:induction false} SelectFailedTestsIdempotent(xs: seq<Example>)
    ensures SelectFailedTests(SelectFailedTests(xs)) == SelectFailedTests(xs)
    decreases |xs|
  {
    if xs != [] {
      var rest := SelectFailedTests(xs[1..]);
      SelectFailedTestsIdempotent(xs[1..]);
      if IsFailed(xs[0]) {
        SelectFailedTestsAppend([xs[0]], rest);
        assert SelectFailedTests([xs[0]]) == [xs[0]] by {
          assert [xs[0]][1..] == [];
        }
      } else {
        assert SelectFailedTests(xs) == rest;
      }
    }
  }

  // ---------------------------------------------------------------------------
  // to_slack_fields

  /** The text block of one failure: a newline, the message, a newline, the
      location line "# path:line", a newline and the separator. */
  function FieldValue(e: Example): (v: string)
    requires e.exception.Some?
    ensures |v| > 1 + |e.exception.value| + |Footer|
    ensures v[0] == '\n' && v[1..1 + |e.exception.value|] == e.exception.value
    ensures v[|v| - |Footer|..] == Footer
  {
    "\n" + e.exception.value + "\n# " + e.filePath + ":" + NatToString(e.lineNumber) + Footer
  }

  /** The field value with its location line grouped, the form the proof of
      `FailingExampleValue` works from. */
  lemma FieldValueLayout(e: Example)
    requires e.exception.Some?
    ensures FieldValue(e) == "\n" + e.exception.value + ("\n# " + e.filePath + ":" + NatToString(e.lineNumber)) + Footer
  {
  }

  /** One field per example, in order, titled with the example's full description. */
  function ToSlackFields(xs: seq<Example>): (r: seq<Field>)
    requires forall e :: e in xs ==> e.exception.Some?
    ensures |r| == |xs|
    ensures forall i :: 0 <= i < |xs| ==> r[i].title == xs[i].fullDescription && r[i].value == FieldValue(xs[i])
    decreases |xs|
  {
    if xs == [] then []
    else [Field(xs[0].fullDescription, FieldValue(xs[0]))] + ToSlackFields(xs[1..])
  }

  /** The longest suffix of s made of digits. */
  function TrailingDigits(s: string): (d: string)
    ensures AllDigits(d) && |d| <= |s| && d == s[|s| - |d|..]
    decreases |s|
  {
    if s == [] || !IsDigit(s[|s| - 1]) then []
    else TrailingDigits(s[..|s| - 1]) + [s[|s| - 1]]
  }

  /** The text between the leading newline and the closing separator line. */
  function Unframe(v: string): (body: Option<string>) {
    if |v| < 1 + |Footer| || v[0] != '\n' || v[|v| - |Footer|..] != Footer then None
    else Some(v[1..|v| - |Footer|])
  }

  /** Splits "text:digits" at the colon before the trailing digits. */
  function SplitLineNumber(body: string): (split: Option<(string, nat)>) {
    var d := TrailingDigits(body);
    if |d| == 0 || |d| == |body| || body[|body| - |d| - 1] != ':' then None
    else Some((body[..|body| - |d| - 1], ParseDecimal(d)))
  }

  /** What a consumer can read back from a field value: the text before the
      line number (message, newline, "# " and path) and the line number. */
  function ParseFieldValue(v: string): (parsed: Option<(string, nat)>) {
    match Unframe(v)
    case None => None
    case Some(body) => SplitLineNumber(body)
  }

  lemma {:induction false} TrailingDigitsAfterColon(p: string, d: string)
    requires AllDigits(d)
    ensures TrailingDigits(p + ":" + d) == d
    decreases |d|
  {
    var s := p + ":" + d;
    if d == [] {
      assert s[|s| - 1] == ':';
    } else {
      assert s[..|s| - 1] == p + ":" + d[..|d| - 1];
      TrailingDigitsAfterColon(p, d[..|d| - 1]);
      assert d == d[..|d| - 1] + [d[|d| - 1]];
    }
  }

  lemma SplitLineNumberOf(head: string, n: nat)
    ensures SplitLineNumber(head + ":" + NatToString(n)) == Some((head, n))
  {
    var digits := NatToString(n);
    var body := head + ":" + digits;
    TrailingDigitsAfterColon(head, digits);
    assert body[|body| - |digits| - 1] == ':';
    assert body[..|body| - |digits| - 1] == head;
    DecimalRoundTrip(n);
  }

  /** The field value format can be parsed back: the location's line number and
      everything before it are recovered exactly. */
  lemma FieldValueParsesBack(e: Example)
    requires e.exception.Some?
    ensures ParseFieldValue(FieldValue(e)) == Some((e.exception.value + "\n# " + e.filePath, e.lineNumber))
  {
    var v := FieldValue(e);
    var head := e.exception.value + "\n# " + e.filePath;
    var body := head + ":" + NatToString(e.lineNumber);
    assert v == "\n" + body + Footer;
    assert v[|v| - |Footer|..] == Footer;
    assert v[1..|v| - |Footer|] == body;
    assert Unframe(v) == Some(body);
    SplitLineNumberOf(head, e.lineNumber);
  }

  // ---------------------------------------------------------------------------
  // notify_on_slack: title and payload

  /** "ALERT: 1 test failed" for exactly one failure, the plural form otherwise. */
  function AlertTitle(failureCount: nat): (t: string)
    ensures t == SingleFailureTitle <==> failureCount == 1
    ensures failureCount != 1 ==> t == "ALERT: " + NatToString(failureCount) + " tests failed"
  {
    if failureCount == 1 then SingleFailureTitle
    else
      var t := "ALERT: " + NatToString(failureCount) + " tests failed";
      assert |t| > |SingleFailureTitle|;
      t
  }

  /** Different failure counts give different titles. */
  lemma AlertTitleInjective(n: nat, m: nat)
    requires AlertTitle(n) == AlertTitle(m)
    ensures n == m
  {
    if n != 1 && m != 1 {
      var t := AlertTitle(n);
      assert t[7..|t| - 13] == NatToString(n);
      assert t[7..|t| - 13] == NatToString(m);
      NatToStringInjective(n, m);
    }
  }

  /** The failure alert: one "danger" attachment whose fallback and title are the
      alert title and whose fields describe the failed examples in order. */
  function FailurePayload(result: RunResult): (p: Payload)
    requires FailuresExplained(result.examples)
    ensures p.SlackMessage? && |p.attachments| == 1
    ensures p.attachments[0].fallback == p.attachments[0].title == AlertTitle(result.failureCount)
    ensures p.attachments[0].color == "danger"
    ensures p.attachments[0].fields == ToSlackFields(SelectFailedTests(result.examples))
  {
    var title := AlertTitle(result.failureCount);
    SlackMessage([Attachment(title, "danger", title, ToSlackFields(SelectFailedTests(result.examples)))])
  }

  /** When the report is consistent, the alert has one field per failed example,
      each naming that example, and its title says how many there are. */
  lemma {:induction false} AlertDescribesEveryFailure(result: RunResult)
    requires FailuresExplained(result.examples) && Consistent(result)
    ensures var a := FailurePayload(result).attachments[0];
      var failed := SelectFailedTests(result.examples);
      && |a.fields| == result.failureCount
      && (forall i :: 0 <= i < |a.fields| ==> a.fields[i].title == failed[i].fullDescription && IsFailed(failed[i]))
      && (a.title == SingleFailureTitle <==> |failed| == 1)
  {
  }

  // ---------------------------------------------------------------------------
  // all_tests_passed? and the routing decision of run

  /** The report's failure count is zero; for a consistent report, that is
      exactly when no example failed. */
  predicate AllTestsPassed(result: RunResult): (passed: bool)
    ensures Consistent(result) ==> (passed <==> forall e :: e in result.examples ==> !IsFailed(e))
  {
    var failed := SelectFailedTests(result.examples);
    assert failed != [] ==> failed[0] in failed;
    result.failureCount == 0
  }

  /** The requests one run sends: on a pass, the success notice to the success
      URL when one is configured (nothing otherwise); on a failure, exactly one
      alert to the webhook. */
  function Notifications(result: RunResult, webhook: string, successUrl: Option<string>): (posts: seq<Post>)
    requires !AllTestsPassed(result) ==> FailuresExplained(result.examples)
    ensures |posts| <= 1
    ensures AllTestsPassed(result) ==>
      && |posts| == (if successUrl.Some? then 1 else 0)
      && (forall p :: p in posts ==> p == Post(successUrl.value, SuccessData(SuccessMarker)))
    ensures !AllTestsPassed(result) ==> posts == [Post(webhook, FailurePayload(result))]
  {
    if AllTestsPassed(result) then
      if successUrl.Some? then [Post(successUrl.value, SuccessData(SuccessMarker))] else []
    else [Post(webhook, FailurePayload(result))]
  }

  /** A success notice and a failure alert are never both sent: the payload of
      every request is a success notice exactly when the run passed. */
  lemma NotificationsExclusive(result: RunResult, webhook: string, successUrl: Option<string>)
    requires !AllTestsPassed(result) ==> FailuresExplained(result.examples)
    ensures forall p :: p in Notifications(result, webhook, successUrl) ==>
      (p.payload.SuccessData? <==> AllTestsPassed(result))
  {
  }

  /** The failing example of the functional test, followed by a passing one.
      The failure message is RSpec's, which begins and ends with a newline
      itself. */
  const FailureMessage := "\nexpected: 500\n     got: 200\n" + "\n(compared using ==)\n"
  const FailingExample := Example(
    "failed",
    "failing test example example of a test which will fail, triggering a notification on Slack",
    Some(FailureMessage),
    "./spec/failure_spec.rb", 13)
  const PassingExample := Example("passed", "passing test example", None, "./spec/success_spec.rb", 4)

  /** The alert the functional test expects for one failing example: two
      newlines before "expected", because RSpec's message starts with one. */
  lemma FunctionalTestAlert(webhook: string, successUrl: Option<string>)
    ensures Notifications(RunResult(1, [FailingExample, PassingExample]), webhook, successUrl)
      == [Post(webhook, SlackMessage([Attachment(
            "ALERT: 1 test failed", "danger", "ALERT: 1 test failed",
            [Field("failing test example example of a test which will fail, triggering a notification on Slack",
                   "\n" + "\nexpected: 500\n     got: 200\n" + "\n(compared using ==)\n"
                   + "\n# ./spec/failure_spec.rb:13" + "\n" + Separator)])]))]
  {
    FailingExampleValue();
    assert SelectFailedTests([PassingExample]) == [] by {
      assert [PassingExample][1..] == [];
    }
    assert [FailingExample, PassingExample][1..] == [PassingExample];
    assert SelectFailedTests([FailingExample, PassingExample]) == [FailingExample];
    assert [FailingExample][1..] == [];
    assert ToSlackFields([FailingExample]) == [Field(FailingExample.fullDescription, FieldValue(FailingExample))];
  }

  /** The location line of the failing example. */
  lemma FailingExampleLocation()
    ensures "\n# " + FailingExample.filePath + ":" + NatToString(FailingExample.lineNumber) == "\n# ./spec/failure_spec.rb:13"
  {
    assert NatToString(13) == "13" by {
      assert NatToString(1) == "1";
    }
  }

  /** The field value of the failing example, piece by piece. */
  lemma FailingExampleValue()
    ensures FieldValue(FailingExample)
      == "\n" + "\nexpected: 500\n     got: 200\n" + "\n(compared using ==)\n"
         + "\n# ./spec/failure_spec.rb:13" + "\n" + Separator
  {
    var first := "\nexpected: 500\n     got: 200\n";
    var second := "\n(compared using ==)\n";
    var location := "\n# ./spec/failure_spec.rb:13";
    FieldValueLayout(FailingExample);
    FailingExampleLocation();
    assert FieldValue(FailingExample) == "\n" + first + second + location + ("\n" + Separator);
  }
}
