/** Suite assembly: `run_test(filename)` of `LimaTestSuite/__main__.py`
    and of the root `run_test.py`. Each loaded test becomes an acquisition
    case when its type is `acquisition` and, in the package's runner only,
    an aborting one when its type is `abort` (ignoring case); any other type
    is rejected with an error log line. The runner then reports how many
    cases ended in an error and how many in a failure. */
module Suite {
  import opened Common

  /** What the runner reads of a loaded test configuration. */
  datatype Entry = Entry(name: string, testType: string)

  /** A test case added to the suite: the test it runs and its abort flag. */
  datatype Case = Case(name: string, abort: bool)

  /** How a test of type `testType` runs: `Some(abort)`, or `None` when the
      type is not valid. Only the package's runner knows `abort` tests. */
  function Kind(testType: string, withAbort: bool): Option<bool> {
    var t := Lower(testType);
    if t == "acquisition" then Some(false)
    else if withAbort && t == "abort" then Some(true)
    else None
  }

  /** The case type names are matched ignoring case. */
  lemma KindIgnoresCase(testType: string, withAbort: bool)
    ensures Kind(testType, withAbort) == Kind(Lower(testType), withAbort)
  {
    LowerIdempotent(testType);
  }

  /** The cases made from `tests`, in order. */
  function Dispatch(tests: seq<Entry>, withAbort: bool): seq<Case>
    decreases |tests|
  {
    if tests == [] then []
    else
      var init, last := tests[..|tests| - 1], tests[|tests| - 1];
      var k := Kind(last.testType, withAbort);
      Dispatch(init, withAbort) + (if k.Some? then [Case(last.name, k.value)] else [])
  }

  /** The types of the tests that were rejected, in order. */
  function Rejected(tests: seq<Entry>, withAbort: bool): seq<string>
    decreases |tests|
  {
    if tests == [] then []
    else
      var init, last := tests[..|tests| - 1], tests[|tests| - 1];
      Rejected(init, withAbort) + (if Kind(last.testType, withAbort).None? then [last.testType] else [])
  }

  /** Every test either becomes a case or is rejected. */
  lemma {:induction false} DispatchSplits(tests: seq<Entry>, withAbort: bool)
    ensures |Dispatch(tests, withAbort)| + |Rejected(tests, withAbort)| == |tests|
    decreases |tests|
  {
    if tests != [] {
      DispatchSplits(tests[..|tests| - 1], withAbort);
    }
  }

  /** Every case runs a test of a valid type, with the abort flag its type
      gives. */
  lemma {:induction false} DispatchSound(tests: seq<Entry>, withAbort: bool)
    ensures forall c :: c in Dispatch(tests, withAbort) ==>
              exists i :: 0 <= i < |tests| && tests[i].name == c.name && Kind(tests[i].testType, withAbort) == Some(c.abort)
    decreases |tests|
  {
    if tests != [] {
      var n := |tests| - 1;
      var init := tests[..n];
      DispatchSound(init, withAbort);
      var before := Dispatch(init, withAbort);
      forall c | c in Dispatch(tests, withAbort)
        ensures exists i :: 0 <= i < |tests| && tests[i].name == c.name && Kind(tests[i].testType, withAbort) == Some(c.abort)
      {
        if c in before {
          var i :| 0 <= i < |init| && init[i].name == c.name && Kind(init[i].testType, withAbort) == Some(c.abort);
          assert tests[i] == init[i];
        } else {
          assert tests[n].name == c.name;
        }
      }
    }
  }

  /** Every test of a valid type has its case. */
  lemma {:induction false} DispatchComplete(tests: seq<Entry>, withAbort: bool)
    ensures forall i :: 0 <= i < |tests| && Kind(tests[i].testType, withAbort).Some? ==>
              Case(tests[i].name, Kind(tests[i].testType, withAbort).value) in Dispatch(tests, withAbort)
    decreases |tests|
  {
    if tests != [] {
      var n := |tests| - 1;
      var init := tests[..n];
      DispatchComplete(init, withAbort);
      assert forall i :: 0 <= i < n ==> init[i] == tests[i];
    }
  }

  /** The root runner never makes an aborting case. */
  lemma {:induction false} NoAbortWithout(tests: seq<Entry>)
    ensures forall c :: c in Dispatch(tests, false) ==> !c.abort
    decreases |tests|
  {
    if tests != [] {
      NoAbortWithout(tests[..|tests| - 1]);
    }
  }

  /** `for test in tests`: adds each valid test's case to the suite and
      logs each rejected type. */
  method BuildSuite(tests: seq<Entry>, withAbort: bool) returns (cases: seq<Case>, rejected: seq<string>)
    ensures cases == Dispatch(tests, withAbort) && rejected == Rejected(tests, withAbort)
  {
    cases, rejected := [], [];
    for i := 0 to |tests|
      invariant cases == Dispatch(tests[..i], withAbort) && rejected == Rejected(tests[..i], withAbort)
    {
      assert tests[..i + 1][..i] == tests[..i];
      var test := tests[i];
      var t := Lower(test.testType);
      if t == "acquisition" {
        cases := cases + [Case(test.name, false)];
      } else if withAbort && t == "abort" {
        cases := cases + [Case(test.name, true)];
      } else {
        rejected := rejected + [test.testType];
      }
    }
    assert tests[..|tests|] == tests;
  }

  /** The tests of `tests` that are there, in order. */
  function Somes(tests: seq<Option<Entry>>): seq<Entry>
    decreases |tests|
  {
    if tests == [] then []
    else
      var init, last := tests[..|tests| - 1], tests[|tests| - 1];
      Somes(init) + (if last.Some? then [last.value] else [])
  }

  /** When every test is there, `Somes` keeps them all, in order. */
  lemma {:induction false} SomesAll(tests: seq<Option<Entry>>)
    requires forall i :: 0 <= i < |tests| ==> tests[i].Some?
    ensures |Somes(tests)| == |tests| && forall i :: 0 <= i < |tests| ==> Somes(tests)[i] == tests[i].value
    decreases |tests|
  {
    if tests != [] {
      var n := |tests| - 1;
      SomesAll(tests[..n]);
      assert forall i :: 0 <= i < n ==> tests[..n][i] == tests[i];
    }
  }

  /** What the root runner's loop makes of the tests: the suite, or the
      `AttributeError` of `test.type` on the first test the root parser
      left as `None`, before any case runs. */
  datatype RootSuite = Built(cases: seq<Case>, rejected: seq<string>) | Crashed(at: nat)

  /** `for test in tests` of the root `run_test.py`, over the list the root
      parser returns, which holds `None` for each test section without
      defaults or type. */
  method BuildRootSuite(tests: seq<Option<Entry>>) returns (s: RootSuite)
    ensures s.Crashed? <==> exists i :: 0 <= i < |tests| && tests[i].None?
    ensures s.Crashed? ==> s.at < |tests| && tests[s.at].None? && forall i :: 0 <= i < s.at ==> tests[i].Some?
    ensures s.Built? ==> s.cases == Dispatch(Somes(tests), false) && s.rejected == Rejected(Somes(tests), false)
  {
    var cases, rejected := [], [];
    for i := 0 to |tests|
      invariant forall j :: 0 <= j < i ==> tests[j].Some?
      invariant cases == Dispatch(Somes(tests[..i]), false) && rejected == Rejected(Somes(tests[..i]), false)
    {
      assert tests[..i + 1][..i] == tests[..i];
      if tests[i].None? {
        return Crashed(i);
      }
      var test := tests[i].value;
      assert Somes(tests[..i + 1]) == Somes(tests[..i]) + [test];
      if Lower(test.testType) == "acquisition" {
        cases := cases + [Case(test.name, false)];
      } else {
        rejected := rejected + [test.testType];
      }
    }
    assert tests[..|tests|] == tests;
    return Built(cases, rejected);
  }

  /** How one case ended for `unittest`: passed, failed (`self.fail` or an
      assertion) or errored (any other exception). */
  datatype CaseResult = CasePassed | CaseFailed | CaseErrored

  function Count(results: seq<CaseResult>, r: CaseResult): (n: nat)
    ensures n <= |results|
  {
    if results == [] then 0 else (if results[0] == r then 1 else 0) + Count(results[1..], r)
  }

  /** `len(result.errors)` and `len(result.failures)`. */
  function Tally(results: seq<CaseResult>): (nat, nat) {
    (Count(results, CaseErrored), Count(results, CaseFailed))
  }

  /** Every case that did not pass is counted once, as an error or as a
      failure. */
  lemma {:induction false} TallyAccounts(results: seq<CaseResult>)
    ensures Tally(results).0 + Tally(results).1 + Count(results, CasePassed) == |results|
    ensures Tally(results) == (0, 0) <==> forall i :: 0 <= i < |results| ==> results[i] == CasePassed
  {
    if results != [] {
      TallyAccounts(results[1..]);
      assert forall i :: 1 <= i < |results| ==> results[i] == results[1..][i - 1];
    }
  }
}
