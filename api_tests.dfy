/** The result tally of the backend test script (backend_test.py): the
    tester's counters and record list, how each logged check updates them,
    and the pass-rate verdict that decides the exit code. The HTTP checks
    themselves are outcomes given as parameters. */
module ApiTests {

  /** One entry of `test_results`, without its timestamp. */
  datatype TestRecord = TestRecord(test: string, success: bool, details: string)

  /** How many records passed: never more than there are records, and all
      of them exactly when every record passed. */
  function PassedCount(records: seq<TestRecord>): (n: nat)
    ensures n <= |records|
    ensures n == |records| <==> forall i :: 0 <= i < |records| ==> records[i].success
  {
    if records == [] then 0
    else
      var init := records[..|records| - 1];
      assert forall i :: 0 <= i < |init| ==> init[i] == records[i];
      PassedCount(init) + (if records[|records| - 1].success then 1 else 0)
  }

  /** Appending one record adds one to the count exactly when it passed. */
  lemma PassedCountAppend(records: seq<TestRecord>, r: TestRecord)
    ensures PassedCount(records + [r]) == PassedCount(records) + (if r.success then 1 else 0)
  {
    assert (records + [r])[..|records|] == records;
  }

  /** `(tests_passed / tests_run) * 100 if tests_run > 0 else 0`, over exact
      rationals: between 0 and 100 when no more tests passed than ran. */
  function SuccessRate(passed: nat, run: nat): (rate: real)
    ensures rate >= 0.0
    ensures passed <= run ==> rate <= 100.0
    ensures run == 0 ==> rate == 0.0
  {
    if run > 0 then (passed as real / run as real) * 100.0 else 0.0
  }

  /** `success_rate >= 70`. */
  predicate Verdict(passed: nat, run: nat) {
    SuccessRate(passed, run) >= 70.0
  }

  /** Multiplying both sides by a positive factor keeps their order. */
  lemma MulKeepsOrder(x: real, y: real, k: real)
    requires k > 0.0
    ensures x >= y <==> x * k >= y * k
  {
  }

  /** The verdict holds exactly when some test ran and at least 70% of the
      tests passed, stated without division. */
  lemma VerdictThreshold(passed: nat, run: nat)
    ensures Verdict(passed, run) <==> run > 0 && passed * 100 >= 70 * run
  {
    if run > 0 {
      var k := run as real;
      var p := passed as real;
      var q := p / k;
      var x := q * 100.0;
      assert q * k == p;
      assert SuccessRate(passed, run) == x;
      MulKeepsOrder(x, 70.0, k);
      assert x * k == p * 100.0 by { assert x * k == (q * k) * 100.0; }
      assert (passed * 100) as real == p * 100.0;
      assert (70 * run) as real == 70.0 * k;
    }
  }

  const DefaultBaseUrl: string := "https://crophealth-8.preview.emergentagent.com"
  const RootTest: string := "API Root Endpoint"

  /** `PlantDiseaseAPITester`. */
  class Tester {
    const baseUrl: string
    const apiUrl: string
    var testsRun: nat
    var testsPassed: nat
    var testResults: seq<TestRecord>

    /** One record per logged check, and the passed counter agrees with the
        records; so `testsPassed <= testsRun == |testResults|`. */
    ghost predicate Valid()
      reads this
    {
      testsRun == |testResults| && testsPassed == PassedCount(testResults)
    }

    /** `__init__`: both counters zero, no records. */
    constructor (baseUrl: string := DefaultBaseUrl)
      ensures Valid()
      ensures this.baseUrl == baseUrl && apiUrl == baseUrl + "/api"
      ensures testsRun == 0 && testsPassed == 0 && testResults == []
    {
      this.baseUrl := baseUrl;
      apiUrl := baseUrl + "/api";
      testsRun := 0;
      testsPassed := 0;
      testResults := [];
    }

    /** `log_test`: one more test run, one more pass exactly when `success`,
        and one record appended carrying the given name, outcome and
        details. */
    method LogTest(name: string, success: bool, details: string := "")
      requires Valid()
      modifies this`testsRun, this`testsPassed, this`testResults
      ensures Valid()
      ensures testsRun == old(testsRun) + 1
      ensures testsPassed == old(testsPassed) + (if success then 1 else 0)
      ensures testResults == old(testResults) + [TestRecord(name, success, details)]
      ensures testsPassed <= testsRun
    {
      testsRun := testsRun + 1;
      if success {
        testsPassed := testsPassed + 1;
      }
      PassedCountAppend(testResults, TestRecord(name, success, details));
      testResults := testResults + [TestRecord(name, success, details)];
    }

    /** `run_all_tests`: `rootPassed` and `rootDetails` are what the root
        check logs, `later` the records the remaining checks log, in order.
        A failing root check ends the run at once with a false verdict;
        otherwise every later record is logged and the verdict is the
        pass-rate threshold over all logged tests. */
    method RunAllTests(rootPassed: bool, rootDetails: string, later: seq<TestRecord>) returns (verdict: bool)
      requires Valid()
      modifies this`testsRun, this`testsPassed, this`testResults
      ensures Valid()
      ensures !rootPassed ==>
        !verdict && testResults == old(testResults) + [TestRecord(RootTest, false, rootDetails)]
      ensures rootPassed ==>
        && testResults == old(testResults) + [TestRecord(RootTest, true, rootDetails)] + later
        && verdict == Verdict(testsPassed, testsRun)
    {
      LogTest(RootTest, rootPassed, rootDetails);
      if !rootPassed {
        return false;
      }
      var i := 0;
      while i < |later|
        invariant 0 <= i <= |later|
        invariant Valid()
        invariant testResults == old(testResults) + [TestRecord(RootTest, true, rootDetails)] + later[..i]
      {
        LogTest(later[i].test, later[i].success, later[i].details);
        assert later[..i + 1] == later[..i] + [later[i]];
        i := i + 1;
      }
      assert later[..i] == later;
      verdict := Verdict(testsPassed, testsRun);
    }
  }

  /** `main`: a fresh tester runs every check, then the results are saved
      (`saved` is whether writing the file succeeded). The exit code is 0
      exactly when the verdict holds and saving worked, 1 otherwise. */
  method RunMain(rootPassed: bool, rootDetails: string, later: seq<TestRecord>, saved: bool) returns (code: int)
    ensures code == 0 || code == 1
    ensures code == 0 <==>
      && rootPassed && saved
      && Verdict(PassedCount([TestRecord(RootTest, true, rootDetails)] + later), 1 + |later|)
  {
    var tester := new Tester();
    var success := tester.RunAllTests(rootPassed, rootDetails, later);
    assert [] + [TestRecord(RootTest, true, rootDetails)] + later == [TestRecord(RootTest, true, rootDetails)] + later;
    if !saved {
      return 1;
    }
    code := if success then 0 else 1;
  }
}
