/**
 * `jstest(tests)`: builds the suite from the definition map and runs it.
 * A construction error leaves `jstest` as an exception before any test runs.
 */
module Jstest {
  import opened Wrappers
  import opened TestRecord
  import opened Normalizer
  import opened SuiteBuilder
  import opened Runner
  import opened RunProperties

  /** The whole call on values: the build error, or the report of the run. */
  function JstestSpec(defs: seq<Entry>): Result<Report, BuildError>
  {
    var views := NormalizeSpec(defs);
    match BuildSpec(views)
    case Err(e) => Err(e)
    case Ok(st) => Ok(RunSpec(st.hooks, Scheduled(views, st)))
  }

  /** `jstest(tests)`. */
  method Jstest(defs: seq<Entry>) returns (r: Result<Report, BuildError>)
    ensures r == JstestSpec(defs)
  {
    var suite := NewSuite(defs);
    if suite.Err? {
      return Err(suite.error);
    }
    var report := RunSuite(suite.value);
    return Ok(report);
  }

  /** 0, 1, ..., k - 1. */
  function Upto(k: nat): (s: seq<nat>)
    ensures |s| == k && forall j :: 0 <= j < k ==> s[j] == j
  {
    seq(k, j => j)
  }

  /** With no attributes anywhere, the first `k` tests are pushed once each, in order. */
  lemma {:induction false} BuildUpToPlain(views: seq<TestView>, k: nat)
    requires k <= |views|
    requires forall j :: 0 <= j < |views| ==> views[j].attributes.None?
    ensures BuildUpTo(views, k) == Ok(InitialState(views).(order := Upto(k)))
  {
    if k > 0 {
      BuildUpToPlain(views, k - 1);
      assert Upto(k - 1) + [k - 1] == Upto(k);
    }
  }

  /** Normalizing plain functions keeps one Test per entry, with the entry's name and body. */
  lemma {:induction false} NormalizePlain(defs: seq<Entry>)
    requires forall k :: 0 <= k < |defs| ==> defs[k].1.Bare?
    ensures |NormalizeSpec(defs)| == |defs|
    ensures forall k :: 0 <= k < |defs| ==>
      NormalizeSpec(defs)[k] == TestView(defs[k].0, defs[k].1.body, None, [])
    decreases |defs|
  {
    if defs != [] {
      NormalizePlain(defs[..|defs| - 1]);
    }
  }

  /** The whole call, given what normalizing and building produce. */
  lemma JstestOf(defs: seq<Entry>, views: seq<TestView>, st: BuildState)
    requires NormalizeSpec(defs) == views && BuildSpec(views) == Ok(st)
    ensures JstestSpec(defs) == Ok(RunSpec(st.hooks, Scheduled(views, st)))
  {
  }

  /** Scheduling every test once, in order, with its own expected kinds gives the tests back. */
  lemma ScheduledAll(views: seq<TestView>)
    ensures Scheduled(views, InitialState(views).(order := Upto(|views|))) == views
  {
  }

  /**
   * A map of plain functions: no hook is set, every function is run exactly
   * once in the map's iteration order between the (empty) hooks, and each
   * gets the verdict on its body with nothing expected.
   */
  lemma PlainFunctionsRunInOrder(defs: seq<Entry>)
    requires forall k :: 0 <= k < |defs| ==> defs[k].1.Bare?
    ensures var views := NormalizeSpec(defs);
      |views| == |defs| &&
      (forall k :: 0 <= k < |defs| ==> views[k] == TestView(defs[k].0, defs[k].1.body, None, [])) &&
      JstestSpec(defs) ==
        Ok(Report([SuiteSetupCalled] + TestCalls(views) + [SuiteTeardownCalled], Verdicts(views),
                  CountPassed(Verdicts(views)), |views| - CountPassed(Verdicts(views)), Finished))
  {
    var views := NormalizeSpec(defs);
    NormalizePlain(defs);
    BuildUpToPlain(views, |views|);
    var st := InitialState(views).(order := Upto(|views|));
    JstestOf(defs, views, st);
    ScheduledAll(views);
    assert HooksComplete(NoHooks);
    RunWhenHooksComplete(NoHooks, views);
  }
}
