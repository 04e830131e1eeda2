/** From the reporter's callbacks to the verdict the command line exits on. */
module Verdict {
  import opened Domain
  import opened Store
  import Runs

  datatype AttemptStatus = DidPass | DidFail | DidTimeOut | WasSkipped | WasInterrupted

  /** One attempt of a test; `id` is the identity of the result object. */
  datatype Attempt = Attempt(id: nat, status: AttemptStatus)

  datatype Test = Test(results: seq<Attempt>)

  /** The overall status Playwright hands to the reporter. */
  datatype FullStatus = FullPassed | FullFailed | FullTimedOut | FullInterrupted

  datatype Verification = Verified | Partial | Unverified

  datatype Report = Report(status: Status, verification: Verification, summary: Summary)

  // ---- assertion counts ----

  datatype Callback = TestBegin(result: nat) | StepEnd(result: nat, category: string)

  function CountOf(assertions: map<nat, nat>, result: nat): nat {
    if result in assertions then assertions[result] else 0
  }

  function After(assertions: map<nat, nat>, c: Callback): map<nat, nat> {
    match c
    case TestBegin(result) => assertions[result := 0]
    case StepEnd(result, category) =>
      if category == "expect" then assertions[result := CountOf(assertions, result) + 1] else assertions
  }

  function Assertions(trace: seq<Callback>): map<nat, nat> {
    if trace == [] then map[] else After(Assertions(trace[..|trace| - 1]), trace[|trace| - 1])
  }

  /** The finished expect steps of a result since it last began. */
  function ExpectSteps(trace: seq<Callback>, result: nat): set<nat> {
    set i: nat | i < |trace| && trace[i] == StepEnd(result, "expect") && forall j :: i < j < |trace| ==> trace[j] != TestBegin(result)
  }

  lemma {:induction false} AssertionsCountExpectSteps(trace: seq<Callback>, result: nat)
    ensures CountOf(Assertions(trace), result) == |ExpectSteps(trace, result)|
  {
    if trace == [] {
      assert ExpectSteps(trace, result) == {};
    } else {
      var n := |trace| - 1;
      var before := ExpectSteps(trace[..n], result);
      AssertionsCountExpectSteps(trace[..n], result);
      LastCallback(trace, result);
      hide ExpectSteps;
      assert trace[n] == StepEnd(result, "expect") ==> |before + {n}| == |before| + 1;
    }
  }

  lemma LastCallback(trace: seq<Callback>, result: nat)
    requires trace != []
    ensures var n := |trace| - 1;
            var before := ExpectSteps(trace[..n], result);
            && n !in before
            && ExpectSteps(trace, result)
            == if trace[n] == TestBegin(result) then {} else if trace[n] == StepEnd(result, "expect") then before + {n} else before
  {
  }

  // ---- the summary ----

  predicate LastIs(t: Test, status: AttemptStatus) {
    t.results != [] && t.results[|t.results| - 1].status == status
  }

  predicate IsSkipped(t: Test) {
    t.results == [] || LastIs(t, WasSkipped)
  }

  predicate IsFailed(t: Test) {
    !IsSkipped(t) && !LastIs(t, DidPass)
  }

  /** Some attempt failed or timed out. */
  predicate HasRedAttempt(t: Test) {
    exists i :: 0 <= i < |t.results| && t.results[i].status in {DidFail, DidTimeOut}
  }

  predicate IsFlaky(t: Test) {
    LastIs(t, DidPass) && HasRedAttempt(t)
  }

  predicate IsUnverified(assertions: map<nat, nat>, t: Test) {
    !IsSkipped(t) && CountOf(assertions, t.results[|t.results| - 1].id) == 0
  }

  function Count(tests: seq<Test>, p: Test -> bool): nat {
    if tests == [] then 0 else Count(tests[..|tests| - 1], p) + if p(tests[|tests| - 1]) then 1 else 0
  }

  function SummaryOf(tests: seq<Test>, assertions: map<nat, nat>): Summary {
    Summary(|tests|, Count(tests, t => LastIs(t, DidPass)), Count(tests, IsFailed), Count(tests, IsSkipped),
            Count(tests, IsFlaky), Count(tests, t => IsUnverified(assertions, t)))
  }

  function StatusFor(summary: Summary, full: FullStatus): Status {
    if summary.total == 0 then Error
    else if full.FullTimedOut? then TimedOut
    else if full.FullInterrupted? then Cancelled
    else if summary.failed > 0 then Failed
    else if full.FullPassed? then Passed
    else Failed
  }

  function VerificationFor(summary: Summary): Verification {
    if summary.total == 0 || summary.unverified + summary.skipped == summary.total then Unverified
    else if summary.unverified + summary.skipped > 0 then Partial
    else Verified
  }

  /** What the reporter writes at the end. */
  function ReportOf(tests: seq<Test>, assertions: map<nat, nat>, full: FullStatus): Report {
    var summary := SummaryOf(tests, assertions);
    Report(StatusFor(summary, full), VerificationFor(summary), summary)
  }

  class Reporter {
    var assertions: map<nat, nat>

    constructor ()
      ensures assertions == Assertions([])
    {
      assertions := map[];
    }

    method OnTestBegin(result: nat)
      modifies this
      ensures assertions == After(old(assertions), TestBegin(result))
    {
      assertions := assertions[result := 0];
    }

    method OnStepEnd(result: nat, category: string)
      modifies this
      ensures assertions == After(old(assertions), StepEnd(result, category))
    {
      if category == "expect" {
        var count := if result in assertions then assertions[result] else 0;
        assertions := assertions[result := count + 1];
      }
    }

    method OnEnd(tests: seq<Test>, full: FullStatus) returns (final: Report)
      ensures final == ReportOf(tests, assertions, full)
    {
      var total, passed, failed, skipped, flaky, unverified := 0, 0, 0, 0, 0, 0;
      for n := 0 to |tests|
        invariant Summary(total, passed, failed, skipped, flaky, unverified) == SummaryOf(tests[..n], assertions)
      {
        var test := tests[n];
        SummaryStep(tests, n, assertions);
        total := total + 1;
        if |test.results| > 0 && test.results[|test.results| - 1].status != WasSkipped &&
           CountOf(assertions, test.results[|test.results| - 1].id) == 0 {
          unverified := unverified + 1;
        }
        if |test.results| == 0 || test.results[|test.results| - 1].status == WasSkipped {
          skipped := skipped + 1;
        } else if test.results[|test.results| - 1].status == DidPass {
          passed := passed + 1;
          if exists i :: 0 <= i < |test.results| && (test.results[i].status == DidFail || test.results[i].status == DidTimeOut) {
            assert HasRedAttempt(test);
            flaky := flaky + 1;
          }
        } else {
          failed := failed + 1;
        }
      }
      assert tests[..|tests|] == tests;
      var summary := Summary(total, passed, failed, skipped, flaky, unverified);
      final := Report(StatusFor(summary, full), VerificationFor(summary), summary);
    }
  }

  lemma SummaryStep(tests: seq<Test>, n: nat, assertions: map<nat, nat>)
    requires n < |tests|
    ensures var s, t := SummaryOf(tests[..n], assertions), tests[n];
            SummaryOf(tests[..n + 1], assertions) ==
            Summary(s.total + 1, s.passed + (if LastIs(t, DidPass) then 1 else 0), s.failed + (if IsFailed(t) then 1 else 0),
                    s.skipped + (if IsSkipped(t) then 1 else 0), s.flaky + (if IsFlaky(t) then 1 else 0),
                    s.unverified + (if IsUnverified(assertions, t) then 1 else 0))
  {
    assert tests[..n + 1][..n] == tests[..n];
  }

  // ---- what the counts mean ----

  lemma {:induction false} CountsPartition(tests: seq<Test>, p: Test -> bool, q: Test -> bool, r: Test -> bool)
    requires forall t :: t in tests ==> (if p(t) then 1 else 0) + (if q(t) then 1 else 0) + (if r(t) then 1 else 0) == 1
    ensures Count(tests, p) + Count(tests, q) + Count(tests, r) == |tests|
  {
    if tests != [] {
      CountsPartition(tests[..|tests| - 1], p, q, r);
    }
  }

  lemma {:induction false} CountsImply(tests: seq<Test>, p: Test -> bool, q: Test -> bool)
    requires forall t :: t in tests && p(t) ==> q(t)
    ensures Count(tests, p) <= Count(tests, q)
  {
    if tests != [] {
      CountsImply(tests[..|tests| - 1], p, q);
    }
  }

  lemma {:induction false} CountsApart(tests: seq<Test>, p: Test -> bool, q: Test -> bool)
    requires forall t :: t in tests ==> !(p(t) && q(t))
    ensures Count(tests, p) + Count(tests, q) <= |tests|
  {
    if tests != [] {
      CountsApart(tests[..|tests| - 1], p, q);
    }
  }

  lemma {:induction false} CountZero(tests: seq<Test>, p: Test -> bool)
    ensures Count(tests, p) == 0 <==> forall t :: t in tests ==> !p(t)
  {
    if tests != [] {
      var n := |tests| - 1;
      CountZero(tests[..n], p);
      assert tests == tests[..n] + [tests[n]];
    }
  }

  /** Every test is counted once as passed, failed or skipped; the other two counts stay within theirs. */
  lemma SummaryPartitions(tests: seq<Test>, assertions: map<nat, nat>)
    ensures var s := SummaryOf(tests, assertions);
            s.passed + s.failed + s.skipped == s.total && s.flaky <= s.passed && s.unverified + s.skipped <= s.total
  {
    CountsPartition(tests, t => LastIs(t, DidPass), IsFailed, IsSkipped);
    CountsImply(tests, IsFlaky, t => LastIs(t, DidPass));
    CountsApart(tests, t => IsUnverified(assertions, t), IsSkipped);
  }

  /** The status of a report: an error if there was no test; else what Playwright was stopped by; else passed if
      it passed and every test was skipped or passed in the end; else failed. */
  lemma StatusMeans(tests: seq<Test>, assertions: map<nat, nat>, full: FullStatus)
    ensures ReportOf(tests, assertions, full).status ==
            if tests == [] then Error
            else if full == FullTimedOut then TimedOut
            else if full == FullInterrupted then Cancelled
            else if full == FullPassed && forall t :: t in tests && t.results != [] ==>
                      t.results[|t.results| - 1].status in {WasSkipped, DidPass} then Passed
            else Failed
  {
    CountZero(tests, IsFailed);
  }

  /** The verification of a report: none if every test was skipped or counted no assertion, full if no test was or
      did, and partial otherwise. */
  lemma VerificationMeans(tests: seq<Test>, assertions: map<nat, nat>, full: FullStatus)
    ensures var asserted := (t: Test) => t.results != [] && t.results[|t.results| - 1].status != WasSkipped &&
                                         CountOf(assertions, t.results[|t.results| - 1].id) > 0;
            ReportOf(tests, assertions, full).verification ==
            if forall t :: t in tests ==> !asserted(t) then Unverified
            else if forall t :: t in tests ==> asserted(t) then Verified
            else Partial
  {
    var asserted := (t: Test) => t.results != [] && t.results[|t.results| - 1].status != WasSkipped &&
                                 CountOf(assertions, t.results[|t.results| - 1].id) > 0;
    CountsPartition(tests, asserted, t => IsUnverified(assertions, t), IsSkipped);
    CountZero(tests, asserted);
    CountZero(tests, IsSkipped);
    CountZero(tests, t => IsUnverified(assertions, t));
    SummaryPartitions(tests, assertions);
  }

  /** The last attempt ended like this. */
  predicate Ends(t: Test, status: AttemptStatus) {
    t.results != [] && t.results[|t.results| - 1].status == status
  }

  /** Some attempt failed or timed out. */
  predicate Stumbles(t: Test) {
    exists i :: 0 <= i < |t.results| && (t.results[i].status == DidFail || t.results[i].status == DidTimeOut)
  }

  /** Counting is the size of the set of counted tests. */
  lemma {:induction false} CountIs(tests: seq<Test>, p: Test -> bool, these: set<nat>)
    requires forall i: nat :: i in these <==> i < |tests| && p(tests[i])
    ensures Count(tests, p) == |these|
  {
    if tests == [] {
      assert these == {};
    } else {
      var n := |tests| - 1;
      CountIs(tests[..n], p, these - {n});
      assert these == (these - {n}) + if p(tests[n]) then {n} else {};
    }
  }

  /** The six counts of a summary, test by test. */
  lemma SummaryCounts(tests: seq<Test>, assertions: map<nat, nat>)
    ensures var s := SummaryOf(tests, assertions);
            && s.total == |tests|
            && s.skipped == |set i: nat | i < |tests| && (tests[i].results == [] || Ends(tests[i], WasSkipped))|
            && s.passed == |set i: nat | i < |tests| && Ends(tests[i], DidPass)|
            && s.failed == |set i: nat | i < |tests| && tests[i].results != [] && !Ends(tests[i], WasSkipped) && !Ends(tests[i], DidPass)|
            && s.flaky == |set i: nat | i < |tests| && Ends(tests[i], DidPass) && Stumbles(tests[i])|
            && s.unverified == |set i: nat | i < |tests| && tests[i].results != [] && !Ends(tests[i], WasSkipped) &&
                                             CountOf(assertions, tests[i].results[|tests[i].results| - 1].id) == 0|
  {
    hide Count;
    CountIs(tests, IsSkipped, set i: nat | i < |tests| && (tests[i].results == [] || Ends(tests[i], WasSkipped)));
    CountIs(tests, t => LastIs(t, DidPass), set i: nat | i < |tests| && Ends(tests[i], DidPass));
    CountIs(tests, IsFailed,
            set i: nat | i < |tests| && tests[i].results != [] && !Ends(tests[i], WasSkipped) && !Ends(tests[i], DidPass));
    CountIs(tests, IsFlaky, set i: nat | i < |tests| && Ends(tests[i], DidPass) && Stumbles(tests[i]));
    CountIs(tests, t => IsUnverified(assertions, t),
            set i: nat | i < |tests| && tests[i].results != [] && !Ends(tests[i], WasSkipped) &&
                         CountOf(assertions, tests[i].results[|tests[i].results| - 1].id) == 0);
  }

  /** A report without any doubt in it: passed, fully verified, nothing flaky. */
  predicate AllGreen(report: Report) {
    report.status == Passed && report.verification == Verified && report.summary.flaky == 0
  }

  /** What a reader of a green build is entitled to. */
  predicate TrulyGreen(t: Test, assertions: map<nat, nat>) {
    LastIs(t, DidPass) && CountOf(assertions, t.results[|t.results| - 1].id) > 0 && !HasRedAttempt(t)
  }

  /** The report is green exactly if Playwright passed, the suite is not empty, and in every test the last
      attempt passed with an assertion counted and no attempt failed or timed out. */
  lemma GreenReport(tests: seq<Test>, assertions: map<nat, nat>, full: FullStatus)
    ensures AllGreen(ReportOf(tests, assertions, full)) <==>
            full.FullPassed? && tests != [] && forall t :: t in tests ==> TrulyGreen(t, assertions)
  {
    CountZero(tests, IsFailed);
    CountZero(tests, IsSkipped);
    CountZero(tests, IsFlaky);
    CountZero(tests, t => IsUnverified(assertions, t));
    SummaryPartitions(tests, assertions);
  }

  // ---- the overrides between the reporter and the row ----

  /** What can go wrong on the way. `cancelSeen` and `cancelLate` are the runner's cancel flag when it
      overrides the status and when a failed sanitization asks about it. */
  datatype Delivery = Delivery(
    report: Option<Report>, setupFailed: bool, cleanupFailed: bool, interrupted: bool, resultFile: bool,
    cancelSeen: Option<Status>, cancelLate: bool, sanitized: bool)

  /** The container's entry script. */
  function EntryResult(d: Delivery): Report {
    var base := if d.report.Some? then d.report.value else Report(Error, Unverified, NOTHING_RAN);
    var checked := if d.setupFailed || d.cleanupFailed then base.(status := Error) else base;
    if d.interrupted then checked.(status := Cancelled) else checked
  }

  /** The host's `finally` block. */
  function HostResult(d: Delivery): Report {
    var base := if d.resultFile then EntryResult(d) else Report(Error, Unverified, NOTHING_RAN);
    var told := if d.cancelSeen.Some? then base.(status := d.cancelSeen.value) else base;
    if !d.sanitized && d.cancelSeen.None? && !d.cancelLate then told.(status := Error) else told
  }

  /** The overrides in order of force: the runner's own cancel or timeout; a failed sanitization; an interruption
      in the container; a failed setup or clean-up; and no report at all. */
  lemma OverridesDecide(d: Delivery)
    ensures HostResult(d).status ==
            if d.cancelSeen.Some? then d.cancelSeen.value
            else if !d.sanitized && !d.cancelLate then Error
            else if !d.resultFile then Error
            else if d.interrupted then Cancelled
            else if d.setupFailed || d.cleanupFailed || d.report.None? then Error
            else d.report.value.status
    ensures HostResult(d).verification == (if d.resultFile && d.report.Some? then d.report.value.verification else Unverified)
    ensures HostResult(d).summary == (if d.resultFile && d.report.Some? then d.report.value.summary else Summary(0, 0, 0, 0, 0, 0))
  {
  }

  predicate Untouched(d: Delivery) {
    && d.resultFile && d.report.Some? && !d.setupFailed && !d.cleanupFailed && !d.interrupted
    && d.cancelSeen.None? && (d.sanitized || d.cancelLate)
  }

  /** A failed sanitization does not override a status if a cancel arrives just before; when that cancel was a
      request, the row was cancelled before the controller heard of it. */
  lemma NoOverrideProducesPassed(d: Delivery)
    requires d.cancelSeen.Some? ==> d.cancelSeen.value in {Cancelled, TimedOut}
    ensures HostResult(d).status == Passed <==> Untouched(d) && d.report.value.status == Passed
    ensures Untouched(d) ==> HostResult(d) == d.report.value
  {
  }

  // ---- the finished row ----

  const VERIFICATION_WORDS: set<string> := {"verified", "partial", "unverified"}

  function VerificationWord(v: Verification): string {
    match v
    case Verified => "verified"
    case Partial => "partial"
    case Unverified => "unverified"
  }

  /** What redaction may make of a verification word: nothing, or text with a marker in it. */
  predicate Redacts(word: string, text: string) {
    text == word || text !in VERIFICATION_WORDS
  }

  /** The row after its execution: the host's result is finished; if the store refuses that, the failure is;
      and if it refuses that too, the row stays. */
  function FinishedRow(cfg: Runs.Config, row: Body, host: Report, verification: string, error: Value, failure: Value, now: int): Body
    requires Runs.Shaped(row)
  {
    var result := Runs.RunResult(host.status, verification, Tally(host.summary), error);
    match Runs.FinishSection(row, cfg.redactWord(Runs.EnvOf(row), host.status), result, now)
    case Success(finished) => finished
    case Failure(_) =>
      match Runs.FinishSection(row, cfg.redactWord(Runs.EnvOf(row), Error), Runs.FailedResult(failure), now)
      case Success(failed) => failed
      case Failure(_) => row
  }

  /** The command line's test of the row. */
  predicate ExitsZero(row: Body) {
    && HasStatus(row) && StatusOf(row) == Passed
    && VerificationKey in row && row[VerificationKey] == Text("verified")
    && SummaryKey in row && row[SummaryKey].Tally? && row[SummaryKey].summary.flaky == 0
  }

  /** The row that a first finish leaves, or the one that it does not. */
  lemma FinishedFields(cfg: Runs.Config, row: Body, host: Report, verification: string, error: Value, failure: Value, now: int)
    requires Runs.ValidConfig(cfg) && Runs.Shaped(row) && StatusOf(row) in {Running, Cancelled}
    ensures var after := FinishedRow(cfg, row, host, verification, error, failure, now);
            && HasStatus(after)
            && (StatusOf(after) == Passed <==>
                  StatusOf(row) == Running && host.status == Passed && Runs.Clean(cfg, Runs.EnvOf(row), Passed))
            && (StatusOf(after) == Passed ==>
                  && VerificationKey in after && after[VerificationKey] == Text(verification)
                  && SummaryKey in after && after[SummaryKey] == Tally(host.summary))
  {
  }

  /** A test whose last attempt passed with at least one finished expect step, and none of whose attempts
      failed or timed out. */
  ghost predicate PassedWithExpect(trace: seq<Callback>, t: Test) {
    LastIs(t, DidPass) && |ExpectSteps(trace, t.results[|t.results| - 1].id)| > 0 && !HasRedAttempt(t)
  }

  /** Exit code 0 on the finished row means exactly: the run was not cancelled, nothing between the reporter
      and the row overrode the report, redaction left the words `passed` and `verified` alone, Playwright
      passed, the suite is not empty, and every test passed with an expect step and without a red attempt. */
  lemma ExitZeroMeansGreen(cfg: Runs.Config, row: Body, d: Delivery, tests: seq<Test>, trace: seq<Callback>,
                           full: FullStatus, verification: string, error: Value, failure: Value, now: int)
    requires Runs.ValidConfig(cfg) && Runs.Shaped(row) && StatusOf(row) in {Running, Cancelled}
    requires d.report.Some? ==> d.report.value == ReportOf(tests, Assertions(trace), full)
    requires d.cancelSeen.Some? ==> d.cancelSeen.value in {Cancelled, TimedOut}
    requires Redacts(VerificationWord(HostResult(d).verification), verification)
    ensures ExitsZero(FinishedRow(cfg, row, HostResult(d), verification, error, failure, now)) <==>
            && StatusOf(row) == Running && Untouched(d)
            && Runs.Clean(cfg, Runs.EnvOf(row), Passed) && verification == VerificationWord(HostResult(d).verification)
            && full.FullPassed? && tests != []
            && forall t :: t in tests ==> PassedWithExpect(trace, t)
  {
    var host, assertions := HostResult(d), Assertions(trace);
    FinishedFields(cfg, row, host, verification, error, failure, now);
    NoOverrideProducesPassed(d);
    GreenReport(tests, assertions, full);
    forall t | t in tests ensures TrulyGreen(t, assertions) <==> PassedWithExpect(trace, t) {
      if LastIs(t, DidPass) {
        AssertionsCountExpectSteps(trace, t.results[|t.results| - 1].id);
      }
    }
    hide FinishedRow, HostResult, ReportOf, Assertions;
    assert verification == "verified" <==> host.verification == Verified && verification == VerificationWord(host.verification);
  }
}
