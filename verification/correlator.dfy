/** The event correlator of the `Gas` reporter: the `runner.on(...)` handlers
    as one pure step function over an immutable state. The synchronous
    block-number query becomes the `block` argument of a step: the number the
    node would report if it were asked at that moment. */
module Correlator {
  import opened JsValues
  import opened Text
  import opened Sanitizer

  /** The hook-title marker that opens a test's attribution window. */
  const BeforeEach := "before each"

  /** Reporter options: whether an in-process `provider` was configured. */
  datatype Config = Config(provider: bool)

  /** Mocha's runner events. `RunEnd` carries what the host supplies at that
      point: the reporter's `stats` object and the gas report that
      `table.saveCodeChecksData(watch.data)` returns, both opaque here. */
  datatype Event<S, G> =
    | RunBegin
    | TestBegin
    | HookEnd(title: string)
    | TestEnd(test: Test)
    | TestPending(test: Test)
    | TestPass(test: Test)
    | TestFail(test: Test)
    | RunEnd(stats: S, gasReport: G)

  /** The four append-only buffers of raw test handles. */
  datatype Bucket = Tests | Pending | Failures | Passes

  /** The document written at run end (`obj` in the source). */
  datatype Report<S, G> = Report(
    stats: S,
    tests: seq<TestRecord>,
    pending: seq<TestRecord>,
    failures: seq<TestRecord>,
    passes: seq<TestRecord>,
    gasReport: G)

  /** Everything the handlers read or write, plus counters for the calls into
      collaborators whose effect is not modelled. */
  datatype State<S, G> = State(
    tests: seq<Test>,
    pending: seq<Test>,
    failures: seq<Test>,
    passes: seq<Test>,
    beforeStartBlock: Option<nat>,     // watch.beforeStartBlock
    itStartBlock: Option<nat>,         // watch.itStartBlock
    initializations: nat,              // calls of watch.data.initialize
    cacheResets: nat,                  // calls of watch.data.resetAddressCache
    queries: nat,                      // calls of sync.blockNumber
    testResults: Option<Report<S, G>>, // runner.testResults
    written: seq<Report<S, G>>)        // documents written to standard output

  /** The state right after the reporter is constructed: empty buffers, no
      block window, none of `sync.blockNumber`, `watch.data.initialize` or
      `watch.data.resetAddressCache` called yet, and nothing written. */
  function Start<S, G>(): (r: State<S, G>)
    ensures forall k :: Buffer(r, k) == []
    ensures r.beforeStartBlock.None? && r.itStartBlock.None?
    ensures r.initializations == r.cacheResets == r.queries == 0
    ensures r.testResults.None? && r.written == []
  {
    State([], [], [], [], None, None, 0, 0, 0, None, [])
  }

  function Buffer<S, G>(s: State<S, G>, k: Bucket): seq<Test>
  {
    match k
    case Tests => s.tests
    case Pending => s.pending
    case Failures => s.failures
    case Passes => s.passes
  }

  function Listed<S, G>(rep: Report<S, G>, k: Bucket): seq<TestRecord>
  {
    match k
    case Tests => rep.tests
    case Pending => rep.pending
    case Failures => rep.failures
    case Passes => rep.passes
  }

  /** What an event appends to bucket `k`: its test for the one bucket that
      listens to it, nothing otherwise. */
  function Feeds<S, G>(e: Event<S, G>, k: Bucket): seq<Test>
  {
    match e
    case TestEnd(t) => if k == Tests then [t] else []
    case TestPending(t) => if k == Pending then [t] else []
    case TestPass(t) => if k == Passes then [t] else []
    case TestFail(t) => if k == Failures then [t] else []
    case _ => []
  }

  /** `rs` is `ts.map(clean)`: same length, same order. */
  ghost predicate IsCleaned(rs: seq<TestRecord>, ts: seq<Test>)
  {
    |rs| == |ts| && forall i :: 0 <= i < |ts| ==> rs[i] == Clean(ts[i])
  }

  /** The report of a run end whose buffers were those of `s`. */
  ghost predicate ReportsBuffers<S, G>(rep: Report<S, G>, s: State<S, G>, stats: S, gasReport: G)
  {
    && rep.stats == stats && rep.gasReport == gasReport
    && forall k :: IsCleaned(Listed(rep, k), Buffer(s, k))
  }

  ghost predicate MentionsBeforeEach(title: string)
  {
    exists i :: OccursAt(title, BeforeEach, i)
  }

  /** Whether the event is a hook end that moves `itStartBlock`. */
  ghost predicate OpensWindow<S, G>(cfg: Config, e: Event<S, G>)
  {
    e.HookEnd? && MentionsBeforeEach(e.title) && !cfg.provider
  }

  ghost predicate QueriesChain<S, G>(cfg: Config, e: Event<S, G>)
  {
    (e.TestBegin? && !cfg.provider) || OpensWindow(cfg, e)
  }

  function CleanAll(ts: seq<Test>): (rs: seq<TestRecord>)
    ensures IsCleaned(rs, ts)
  {
    seq(|ts|, i requires 0 <= i < |ts| => Clean(ts[i]))
  }

  /** The object built by the run-end handler. */
  function Assemble<S, G>(s: State<S, G>, stats: S, gasReport: G): (rep: Report<S, G>)
    ensures ReportsBuffers(rep, s, stats, gasReport)
  {
    Report(stats, CleanAll(s.tests), CleanAll(s.pending), CleanAll(s.failures), CleanAll(s.passes), gasReport)
  }

  /** One handler call. */
  function Step<S, G>(cfg: Config, s: State<S, G>, e: Event<S, G>, block: nat): (r: State<S, G>)
    ensures forall k :: Buffer(r, k) == Buffer(s, k) + Feeds(e, k)
    ensures r.beforeStartBlock == (if e.TestBegin? && !cfg.provider then Some(block) else s.beforeStartBlock)
    ensures r.itStartBlock == (if OpensWindow(cfg, e) then Some(block + 1) else s.itStartBlock)
    ensures r.queries == s.queries + (if QueriesChain(cfg, e) then 1 else 0)
    ensures r.cacheResets == s.cacheResets + (if e.TestBegin? then 1 else 0)
    ensures r.initializations == s.initializations + (if e.RunBegin? then 1 else 0)
    ensures e.RunEnd? ==>
              && r.testResults.Some? && r.written == s.written + [r.testResults.value]
              && ReportsBuffers(r.testResults.value, s, e.stats, e.gasReport)
    ensures !e.RunEnd? ==> r.testResults == s.testResults && r.written == s.written
  {
    match e
    case RunBegin => s.(initializations := s.initializations + 1)
    case TestEnd(t) => s.(tests := s.tests + [t])
    case TestPending(t) => s.(pending := s.pending + [t])
    case TestBegin =>
      var s' := if !cfg.provider then s.(beforeStartBlock := Some(block), queries := s.queries + 1) else s;
      s'.(cacheResets := s.cacheResets + 1)
    case HookEnd(title) =>
      IncludesSpec(title, BeforeEach);
      if Includes(title, BeforeEach) && !cfg.provider then
        s.(itStartBlock := Some(block + 1), queries := s.queries + 1)
      else s
    case TestPass(t) => s.(passes := s.passes + [t])
    case TestFail(t) => s.(failures := s.failures + [t])
    case RunEnd(stats, gasReport) =>
      var rep := Assemble(s, stats, gasReport);
      s.(testResults := Some(rep), written := s.written + [rep])
  }

  // ---------------------------------------------------------------------------
  // Whole runs
  // ---------------------------------------------------------------------------

  /** An event with the block number the node would report at that moment. */
  datatype Tick<S, G> = Tick(event: Event<S, G>, block: nat)

  function Run<S, G>(cfg: Config, s: State<S, G>, ticks: seq<Tick<S, G>>): State<S, G>
    decreases |ticks|
  {
    if ticks == [] then s
    else Run(cfg, Step(cfg, s, ticks[0].event, ticks[0].block), ticks[1..])
  }

  /** Everything a sequence of events appends to bucket `k`, in event order. */
  function FedAll<S, G>(ticks: seq<Tick<S, G>>, k: Bucket): seq<Test>
  {
    if ticks == [] then [] else Feeds(ticks[0].event, k) + FedAll(ticks[1..], k)
  }

  ghost function QueryCount<S, G>(cfg: Config, ticks: seq<Tick<S, G>>): nat
  {
    if ticks == [] then 0
    else (if QueriesChain(cfg, ticks[0].event) then 1 else 0) + QueryCount(cfg, ticks[1..])
  }

  function RunEndCount<S, G>(ticks: seq<Tick<S, G>>): nat
  {
    if ticks == [] then 0 else (if ticks[0].event.RunEnd? then 1 else 0) + RunEndCount(ticks[1..])
  }

  lemma {:induction false} RunAppend<S, G>(cfg: Config, s: State<S, G>, a: seq<Tick<S, G>>, b: seq<Tick<S, G>>)
    ensures Run(cfg, s, a + b) == Run(cfg, Run(cfg, s, a), b)
    decreases |a|
  {
    if a != [] {
      assert a + b != [] && (a + b)[0] == a[0];
      assert (a + b)[1..] == a[1..] + b;
      RunAppend(cfg, Step(cfg, s, a[0].event, a[0].block), a[1..], b);
    } else {
      assert a + b == b;
    }
  }

  /** Every buffer holds exactly the tests of the events that feed it, in
      event order: nothing is dropped, reordered or added. */
  lemma {:induction false} RunBuffers<S, G>(cfg: Config, s: State<S, G>, ticks: seq<Tick<S, G>>, k: Bucket)
    ensures Buffer(Run(cfg, s, ticks), k) == Buffer(s, k) + FedAll(ticks, k)
    decreases |ticks|
  {
    if ticks != [] {
      var s' := Step(cfg, s, ticks[0].event, ticks[0].block);
      RunBuffers(cfg, s', ticks[1..], k);
      assert Buffer(s', k) == Buffer(s, k) + Feeds(ticks[0].event, k);
    }
  }

  /** One block-number query per test start and per "before each" hook end
      when no provider is configured; none at all with a provider, in which
      case the block window is never touched. */
  lemma {:induction false} RunQueries<S, G>(cfg: Config, s: State<S, G>, ticks: seq<Tick<S, G>>)
    ensures Run(cfg, s, ticks).queries == s.queries + QueryCount(cfg, ticks)
    ensures cfg.provider ==> QueryCount(cfg, ticks) == 0
    ensures cfg.provider ==> Run(cfg, s, ticks).beforeStartBlock == s.beforeStartBlock
    ensures cfg.provider ==> Run(cfg, s, ticks).itStartBlock == s.itStartBlock
    decreases |ticks|
  {
    if ticks != [] {
      RunQueries(cfg, Step(cfg, s, ticks[0].event, ticks[0].block), ticks[1..]);
    }
  }

  /** One document is written per run-end event, and earlier documents are
      never altered. */
  lemma {:induction false} RunWrites<S, G>(cfg: Config, s: State<S, G>, ticks: seq<Tick<S, G>>)
    ensures s.written <= Run(cfg, s, ticks).written
    ensures |Run(cfg, s, ticks).written| == |s.written| + RunEndCount(ticks)
    decreases |ticks|
  {
    if ticks != [] {
      RunWrites(cfg, Step(cfg, s, ticks[0].event, ticks[0].block), ticks[1..]);
    }
  }

  /** A run ending in its only run-end event writes exactly one document; its
      four lists are the sanitized tests of the events that fed each buffer,
      in event order. */
  lemma RunEndReports<S, G>(cfg: Config, body: seq<Tick<S, G>>, stats: S, gasReport: G, block: nat)
    requires RunEndCount(body) == 0
    ensures var r := Run(cfg, Start(), body + [Tick(RunEnd(stats, gasReport), block)]);
            && |r.written| == 1 && r.testResults == Some(r.written[0])
            && r.written[0].stats == stats && r.written[0].gasReport == gasReport
            && forall k :: IsCleaned(Listed(r.written[0], k), FedAll(body, k))
  {
    var s: State<S, G> := Start();
    var mid := Run(cfg, s, body);
    var last := [Tick(RunEnd(stats, gasReport), block)];
    RunAppend(cfg, s, body, last);
    RunWrites(cfg, s, body);
    forall k
      ensures Buffer(mid, k) == FedAll(body, k)
    {
      RunBuffers(cfg, s, body, k);
    }
    var r := Step(cfg, mid, RunEnd(stats, gasReport), block);
    assert last[1..] == [];
    assert Run(cfg, mid, last) == r;
  }

  /** A test start at `b1` immediately followed by a "before each" hook end at
      `b2`: both block fields are set, from two queries. */
  lemma WindowFollowsTestStart<S, G>(cfg: Config, s: State<S, G>, title: string, b1: nat, b2: nat)
    requires !cfg.provider && Includes(title, BeforeEach)
    ensures var r := Run(cfg, s, [Tick(TestBegin, b1), Tick(HookEnd(title), b2)]);
            && r.beforeStartBlock == Some(b1) && r.itStartBlock == Some(b2 + 1)
            && r.queries == s.queries + 2
            && (b1 <= b2 ==> r.itStartBlock.value > r.beforeStartBlock.value)
  {
    IncludesSpec(title, BeforeEach);
    var ticks: seq<Tick<S, G>> := [Tick(TestBegin, b1), Tick(HookEnd(title), b2)];
    var s1 := Step(cfg, s, TestBegin, b1);
    var s2 := Step(cfg, s1, HookEnd(title), b2);
    assert ticks[1..] == [Tick(HookEnd(title), b2)] && ticks[1..][1..] == [];
    assert Run(cfg, s1, ticks[1..]) == s2;
  }

  /** The ticks of one test after its start: no further test start, and no
      block number earlier than `b1`. */
  ghost predicate SameTestAfter<S, G>(mid: seq<Tick<S, G>>, b1: nat)
  {
    forall i :: 0 <= i < |mid| ==> !mid[i].event.TestBegin? && b1 <= mid[i].block
  }

  ghost predicate SomeOpensWindow<S, G>(cfg: Config, mid: seq<Tick<S, G>>)
  {
    exists i :: 0 <= i < |mid| && OpensWindow(cfg, mid[i].event)
  }

  /** Within one test, whatever hooks end after the test start,
      `beforeStartBlock` stays at the start block, and once any "before each"
      hook has ended, `itStartBlock` lies strictly above it. */
  lemma {:induction false} WindowKept<S, G>(cfg: Config, s: State<S, G>, mid: seq<Tick<S, G>>, b1: nat)
    requires !cfg.provider && SameTestAfter(mid, b1)
    ensures Run(cfg, s, mid).beforeStartBlock == s.beforeStartBlock
    ensures (s.itStartBlock.Some? && s.itStartBlock.value > b1) || SomeOpensWindow(cfg, mid) ==>
              Run(cfg, s, mid).itStartBlock.Some? && Run(cfg, s, mid).itStartBlock.value > b1
    decreases |mid|
  {
    if mid != [] {
      var s' := Step(cfg, s, mid[0].event, mid[0].block);
      assert SameTestAfter(mid[1..], b1) by {
        forall i | 0 <= i < |mid[1..]|
          ensures !mid[1..][i].event.TestBegin? && b1 <= mid[1..][i].block
        {
          assert mid[1..][i] == mid[i + 1];
        }
      }
      WindowKept(cfg, s', mid[1..], b1);
      if SomeOpensWindow(cfg, mid) && !OpensWindow(cfg, mid[0].event) {
        var i :| 0 <= i < |mid| && OpensWindow(cfg, mid[i].event);
        assert mid[1..][i - 1] == mid[i];
        assert SomeOpensWindow(cfg, mid[1..]);
      }
    }
  }

  /** A test start followed, within the same test, by any hook ends of which
      at least one is a "before each" hook: the window floor `itStartBlock`
      lies strictly above `beforeStartBlock`, the test's start block. */
  lemma WindowOpensWithinTest<S, G>(cfg: Config, s: State<S, G>, b1: nat, mid: seq<Tick<S, G>>)
    requires !cfg.provider && SameTestAfter(mid, b1) && SomeOpensWindow(cfg, mid)
    ensures var r := Run(cfg, s, [Tick(TestBegin, b1)] + mid);
            && r.beforeStartBlock == Some(b1)
            && r.itStartBlock.Some? && r.itStartBlock.value > r.beforeStartBlock.value
  {
    var first: seq<Tick<S, G>> := [Tick(TestBegin, b1)];
    RunAppend(cfg, s, first, mid);
    var s1 := Step(cfg, s, TestBegin, b1);
    assert first[1..] == [];
    assert Run(cfg, s, first) == s1;
    WindowKept(cfg, s1, mid, b1);
  }

  /** `itStartBlock` is never cleared: a second test without a "before each"
      hook keeps the first test's window floor, while `beforeStartBlock` moves
      on to the second test's start block and past that floor. */
  lemma StaleWindowCarriesOver<S, G>(cfg: Config, s: State<S, G>, title: string, b1: nat, b2: nat, b3: nat)
    requires !cfg.provider && Includes(title, BeforeEach)
    ensures var r := Run(cfg, s, [Tick(TestBegin, b1), Tick(HookEnd(title), b2), Tick(TestBegin, b3)]);
            && r.itStartBlock == Some(b2 + 1) && r.beforeStartBlock == Some(b3)
            && (b2 < b3 ==> r.itStartBlock.value <= r.beforeStartBlock.value)
  {
    var first: seq<Tick<S, G>> := [Tick(TestBegin, b1), Tick(HookEnd(title), b2)];
    var second: seq<Tick<S, G>> := [Tick(TestBegin, b3)];
    assert first + second == [Tick(TestBegin, b1), Tick(HookEnd(title), b2), Tick(TestBegin, b3)];
    RunAppend(cfg, s, first, second);
    WindowFollowsTestStart(cfg, s, title, b1, b2);
    var s2 := Run(cfg, s, first);
    assert second[1..] == [];
    assert Run(cfg, s2, second) == Step(cfg, s2, TestBegin, b3);
  }

  /** The title Mocha gives an unnamed `beforeEach` hook of test "works". */
  const SampleHook := "\"" + BeforeEach + "\" hook for \"works\""

  /** The events Mocha emits for one passing test with a "before each" hook,
      up to (not including) the run end. */
  function PassingTestEvents<S, G>(t: Test, b: seq<nat>): seq<Tick<S, G>>
    requires |b| == 5
  {
    [Tick(RunBegin, b[0]), Tick(TestBegin, b[1]), Tick(HookEnd(SampleHook), b[2]),
     Tick(TestPass(t), b[3]), Tick(TestEnd(t), b[4])]
  }

  lemma ConsTick<S, G>(cfg: Config, x: Tick<S, G>, rest: seq<Tick<S, G>>)
    ensures forall k :: FedAll([x] + rest, k) == Feeds(x.event, k) + FedAll(rest, k)
    ensures RunEndCount([x] + rest) == (if x.event.RunEnd? then 1 else 0) + RunEndCount(rest)
    ensures QueryCount(cfg, [x] + rest) == (if QueriesChain(cfg, x.event) then 1 else 0) + QueryCount(cfg, rest)
  {
  }

  lemma SampleHookMentionsBeforeEach()
    ensures MentionsBeforeEach(SampleHook)
  {
    var post := "\" hook for \"works\"";
    assert SampleHook[1..] == BeforeEach + post;
    assert SampleHook[1..][..|BeforeEach|] == BeforeEach;
    assert OccursAt(SampleHook, BeforeEach, 1);
  }

  lemma PassingTestEventsFeed<S, G>(cfg: Config, t: Test, b: seq<nat>)
    requires |b| == 5
    ensures var body := PassingTestEvents<S, G>(t, b);
            && RunEndCount(body) == 0
            && FedAll(body, Tests) == [t] && FedAll(body, Passes) == [t]
            && FedAll(body, Pending) == [] && FedAll(body, Failures) == []
            && QueryCount(cfg, body) == (if cfg.provider then 0 else 2)
  {
    SampleHookMentionsBeforeEach();
    var body := PassingTestEvents<S, G>(t, b);
    var s4 := [body[4]] + [];
    var s3 := [body[3]] + s4;
    var s2 := [body[2]] + s3;
    var s1 := [body[1]] + s2;
    assert body == [body[0]] + s1;
    ConsTick(cfg, body[4], []);
    ConsTick(cfg, body[3], s4);
    ConsTick(cfg, body[2], s3);
    ConsTick(cfg, body[1], s2);
    ConsTick(cfg, body[0], s1);
  }

  /** The whole run of one passing test. */
  function PassingTestRun<S, G>(t: Test, stats: S, gasReport: G, b: seq<nat>, last: nat): seq<Tick<S, G>>
    requires |b| == 5
  {
    PassingTestEvents(t, b) + [Tick(RunEnd(stats, gasReport), last)]
  }

  lemma PassingTestQueries<S, G>(cfg: Config, t: Test, stats: S, gasReport: G, b: seq<nat>, last: nat)
    requires |b| == 5
    ensures Run(cfg, Start(), PassingTestRun(t, stats, gasReport, b, last)).queries
         == (if cfg.provider then 0 else 2)
  {
    var body := PassingTestEvents<S, G>(t, b);
    var end := [Tick(RunEnd(stats, gasReport), last)];
    PassingTestEventsFeed<S, G>(cfg, t, b);
    RunQueries(cfg, Start<S, G>(), body + end);
    assert end[1..] == [];
    assert QueryCount(cfg, end) == 0;
    QueryCountAppend(cfg, body, end);
  }

  /** The lifecycle of one passing test, as Mocha emits it: the report lists
      that test once under `tests` and once under `passes`, and nothing else;
      the block number is queried twice unless a provider is configured. */
  lemma OnePassingTest<S, G>(cfg: Config, t: Test, stats: S, gasReport: G, b: seq<nat>, last: nat)
    requires |b| == 5
    ensures var r := Run(cfg, Start(), PassingTestRun(t, stats, gasReport, b, last));
            && |r.written| == 1
            && r.written[0].tests == [Clean(t)] && r.written[0].passes == [Clean(t)]
            && r.written[0].pending == [] && r.written[0].failures == []
  {
    var body := PassingTestEvents<S, G>(t, b);
    PassingTestEventsFeed<S, G>(cfg, t, b);
    RunEndReports(cfg, body, stats, gasReport, last);
    var r := Run(cfg, Start(), body + [Tick(RunEnd(stats, gasReport), last)]);
    var rep := r.written[0];
    CleanedSingleton(Listed(rep, Tests), t);
    CleanedSingleton(Listed(rep, Passes), t);
  }

  lemma CleanedSingleton(rs: seq<TestRecord>, t: Test)
    requires IsCleaned(rs, [t])
    ensures rs == [Clean(t)]
  {
  }

  lemma {:induction false} QueryCountAppend<S, G>(cfg: Config, a: seq<Tick<S, G>>, b: seq<Tick<S, G>>)
    ensures QueryCount(cfg, a + b) == QueryCount(cfg, a) + QueryCount(cfg, b)
    decreases |a|
  {
    if a == [] {
      assert a + b == b;
    } else {
      assert (a + b)[1..] == a[1..] + b;
      QueryCountAppend(cfg, a[1..], b);
    }
  }
}
