/** `publish_results`: posts the collected results into one Test Run, or into
    every open run of a Test Plan. The testcase list is the caller's list of
    result records; setting the `version` of a record changes it in place, so
    the list is an array whose elements the run loop overwrites. */
module Publisher {
  import opened Common
  import opened TestRailUtils

  // ---------------------------------------------------------------------------
  // The two filters of run mode
  // ---------------------------------------------------------------------------

  /** `[str(tc['case_id']) for tc in tests]` */
  function CaseIdStrings(tests: seq<RunTest>): (r: seq<string>)
    ensures |r| == |tests|
  {
    seq(|tests|, k requires 0 <= k < |tests| => NatToString(tests[k].caseId))
  }

  /** The case IDs of the tests of a run. */
  function CaseIdsOf(tests: seq<RunTest>): (r: seq<nat>)
    ensures |r| == |tests|
  {
    seq(|tests|, k requires 0 <= k < |tests| => tests[k].caseId)
  }

  /** `[test['case_id'] for test in tests if test['status_id'] == 2]` */
  function BlockedCaseIds(tests: seq<RunTest>): seq<nat> {
    if tests == [] then []
    else
      var last := tests[|tests| - 1];
      BlockedCaseIds(tests[..|tests| - 1]) + (if last.statusId == BlockedStatusId then [last.caseId] else [])
  }

  /** The first filter: the record's ID, with its `C`s removed, is the string
      form of the case ID of some test of the run. */
  predicate InRun(tests: seq<RunTest>, id: string) {
    RemoveChar(id, 'C') in CaseIdStrings(tests)
  }

  /** The second filter: the normalised ID is not among the blocked case IDs. */
  predicate NotBlocked(tests: seq<RunTest>, id: string) {
    match ExtractTestcaseId(id)
    case None => true
    case Some(c) => c !in BlockedCaseIds(tests)
  }

  /** A record survives both filters (the second one only applies when
      blocked testcases are not published). */
  predicate Eligible(tests: seq<RunTest>, publishBlocked: bool, tc: Testcase) {
    InRun(tests, tc.id) && (publishBlocked || NotBlocked(tests, tc.id))
  }

  predicate Increasing(s: seq<nat>) {
    forall j, k :: 0 <= j < k < |s| ==> s[j] < s[k]
  }

  /** Indices, in order, of the records that pass the first filter. */
  function InRunIndices(tests: seq<RunTest>, cases: seq<Testcase>): (r: seq<nat>)
    ensures forall k :: 0 <= k < |r| ==> r[k] < |cases|
  {
    if cases == [] then []
    else
      var n := |cases| - 1;
      InRunIndices(tests, cases[..n]) + (if InRun(tests, cases[n].id) then [n] else [])
  }

  /** The indices of `idx` whose record passes the second filter. */
  function DropBlocked(tests: seq<RunTest>, cases: seq<Testcase>, idx: seq<nat>): (r: seq<nat>)
    requires forall k :: 0 <= k < |idx| ==> idx[k] < |cases|
    ensures forall k :: 0 <= k < |r| ==> r[k] in idx
  {
    if idx == [] then []
    else
      var n := |idx| - 1;
      DropBlocked(tests, cases, idx[..n]) + (if NotBlocked(tests, cases[idx[n]].id) then [idx[n]] else [])
  }

  /** The records run mode publishes, as indices into the caller's list. */
  function Selection(tests: seq<RunTest>, publishBlocked: bool, cases: seq<Testcase>): (r: seq<nat>)
    ensures forall k :: 0 <= k < |r| ==> r[k] < |cases|
  {
    var inRun := InRunIndices(tests, cases);
    if publishBlocked then inRun else DropBlocked(tests, cases, inRun)
  }

  lemma {:induction false} InRunIndicesMembership(tests: seq<RunTest>, cases: seq<Testcase>, i: nat)
    ensures i in InRunIndices(tests, cases) <==> i < |cases| && InRun(tests, cases[i].id)
  {
    if cases != [] {
      var n := |cases| - 1;
      InRunIndicesMembership(tests, cases[..n], i);
      if i < n {
        assert cases[..n][i] == cases[i];
      }
    }
  }

  lemma {:induction false} InRunIndicesIncreasing(tests: seq<RunTest>, cases: seq<Testcase>)
    ensures Increasing(InRunIndices(tests, cases))
  {
    if cases != [] {
      var n := |cases| - 1;
      InRunIndicesIncreasing(tests, cases[..n]);
      var prev := InRunIndices(tests, cases[..n]);
      assert forall k :: 0 <= k < |prev| ==> prev[k] < n;
    }
  }

  lemma {:induction false} DropBlockedMembership(tests: seq<RunTest>, cases: seq<Testcase>, idx: seq<nat>, i: nat)
    requires forall k :: 0 <= k < |idx| ==> idx[k] < |cases|
    ensures i in DropBlocked(tests, cases, idx) <==> i in idx && NotBlocked(tests, cases[i].id)
  {
    if idx != [] {
      var n := |idx| - 1;
      assert idx == idx[..n] + [idx[n]];
      DropBlockedMembership(tests, cases, idx[..n], i);
    }
  }

  lemma {:induction false} DropBlockedIncreasing(tests: seq<RunTest>, cases: seq<Testcase>, idx: seq<nat>)
    requires forall k :: 0 <= k < |idx| ==> idx[k] < |cases|
    requires Increasing(idx)
    ensures Increasing(DropBlocked(tests, cases, idx))
  {
    if idx != [] {
      var n := |idx| - 1;
      DropBlockedIncreasing(tests, cases, idx[..n]);
      var prev := DropBlocked(tests, cases, idx[..n]);
      forall k | 0 <= k < |prev| ensures prev[k] < idx[n] {
        assert prev[k] in idx[..n];
        var m :| 0 <= m < n && idx[..n][m] == prev[k];
      }
    }
  }

  /** Run mode publishes exactly the records that pass both filters, each
      once, in the order of the caller's list. */
  lemma SelectionIsEligible(tests: seq<RunTest>, publishBlocked: bool, cases: seq<Testcase>)
    ensures var r := Selection(tests, publishBlocked, cases);
      && (forall i: nat :: i in r <==> i < |cases| && Eligible(tests, publishBlocked, cases[i]))
      && Increasing(r)
  {
    var inRun := InRunIndices(tests, cases);
    InRunIndicesIncreasing(tests, cases);
    forall i: nat ensures i in Selection(tests, publishBlocked, cases) <==> i < |cases| && Eligible(tests, publishBlocked, cases[i]) {
      InRunIndicesMembership(tests, cases, i);
      if !publishBlocked {
        DropBlockedMembership(tests, cases, inRun, i);
      }
    }
    if !publishBlocked {
      DropBlockedIncreasing(tests, cases, inRun);
    }
  }

  /** The filters look at nothing but the records' IDs. */
  lemma {:induction false} SelectionDependsOnIds(tests: seq<RunTest>, publishBlocked: bool, c1: seq<Testcase>, c2: seq<Testcase>)
    requires |c1| == |c2| && forall i :: 0 <= i < |c1| ==> c1[i].id == c2[i].id
    ensures Selection(tests, publishBlocked, c1) == Selection(tests, publishBlocked, c2)
  {
    InRunIndicesDependsOnIds(tests, c1, c2);
    DropBlockedDependsOnIds(tests, c1, c2, InRunIndices(tests, c1));
  }

  lemma {:induction false} InRunIndicesDependsOnIds(tests: seq<RunTest>, c1: seq<Testcase>, c2: seq<Testcase>)
    requires |c1| == |c2| && forall i :: 0 <= i < |c1| ==> c1[i].id == c2[i].id
    ensures InRunIndices(tests, c1) == InRunIndices(tests, c2)
  {
    if c1 != [] {
      var n := |c1| - 1;
      InRunIndicesDependsOnIds(tests, c1[..n], c2[..n]);
    }
  }

  lemma {:induction false} DropBlockedDependsOnIds(tests: seq<RunTest>, c1: seq<Testcase>, c2: seq<Testcase>, idx: seq<nat>)
    requires |c1| == |c2| && forall i :: 0 <= i < |c1| ==> c1[i].id == c2[i].id
    requires forall k :: 0 <= k < |idx| ==> idx[k] < |c1|
    ensures DropBlocked(tests, c1, idx) == DropBlocked(tests, c2, idx)
  {
    if idx != [] {
      DropBlockedDependsOnIds(tests, c1, c2, idx[..|idx| - 1]);
    }
  }

  // ---------------------------------------------------------------------------
  // The version stamp
  // ---------------------------------------------------------------------------

  /** `if version: testcase['version'] = version` */
  function ApplyVersion(tc: Testcase, version: string): (r: Testcase)
    ensures r.id == tc.id && r.status == tc.status && r.name == tc.name
    ensures r.comment == tc.comment && r.duration == tc.duration
    ensures r.version == (if version != "" then Some(version) else tc.version)
  {
    if version != "" then tc.(version := Some(version)) else tc
  }

  /** Stamping twice is stamping once: a record reached by several runs of a
      plan carries the same version as one reached once. */
  lemma ApplyVersionIdempotent(tc: Testcase, version: string)
    ensures ApplyVersion(ApplyVersion(tc, version), version) == ApplyVersion(tc, version)
  {
  }

  /** The caller's list once the records at the `touched` indices are stamped. */
  function ApplyVersionAt(cases: seq<Testcase>, version: string, touched: set<nat>): (r: seq<Testcase>)
    ensures |r| == |cases|
    ensures forall i :: 0 <= i < |cases| ==> r[i] == if i in touched then ApplyVersion(cases[i], version) else cases[i]
  {
    seq(|cases|, i requires 0 <= i < |cases| => if i in touched then ApplyVersion(cases[i], version) else cases[i])
  }

  lemma ApplyVersionAtTwice(cases: seq<Testcase>, version: string, t1: set<nat>, t2: set<nat>)
    ensures ApplyVersionAt(ApplyVersionAt(cases, version, t1), version, t2) == ApplyVersionAt(cases, version, t1 + t2)
  {
  }

  /** Stamping one more record of a partly stamped list. */
  lemma StampOne(cases: seq<Testcase>, version: string, touched: set<nat>, i: nat)
    requires i < |cases|
    ensures var cur := ApplyVersionAt(cases, version, touched);
      cur[i := ApplyVersion(cur[i], version)] == ApplyVersionAt(cases, version, touched + {i})
  {
  }

  // ---------------------------------------------------------------------------
  // Run mode
  // ---------------------------------------------------------------------------

  /** What publishing into one run comes to: whether the run was available,
      the posts sent, the number of results accepted (`count`), the indices of
      the records whose version was stamped, and the exception that ended the
      loop, if any. */
  datatype RunState = RunState(available: bool, log: seq<Post>, count: nat, touched: set<nat>, raised: Option<Error>)

  /** One pass of the loop over record `i`, given what posting its result came to. */
  function Step(prev: RunState, i: nat, call: CallResult): RunState {
    match call
    case Accepted(p) => RunState(true, prev.log + [p], prev.count + 1, prev.touched + {i}, None)
    case Rejected(p) => RunState(true, prev.log + [p], prev.count, prev.touched + {i}, None)
    case Refused(e) => RunState(true, prev.log, prev.count, prev.touched + {i}, Some(e))
  }

  /** The loop over the selected records `sel`, given what posting each of
      them comes to (`calls`, in the same order): a post the server accepts is
      counted, a result it rejects is skipped, and the first exception ends
      the loop; every record reached is stamped. */
  function RunLoop(sel: seq<nat>, calls: seq<CallResult>): (r: RunState)
    requires |calls| == |sel|
    ensures r.available
  {
    if sel == [] then RunState(true, [], 0, {}, None)
    else
      var n := |sel| - 1;
      var prev := RunLoop(sel[..n], calls[..n]);
      if prev.raised.Some? then prev else Step(prev, sel[n], calls[n])
  }

  /** Posting one record of the loop: its version stamped, then `add_result`. */
  function Attempt(server: Server, runId: int, tc: Testcase, version: string): CallResult {
    AddResult(server, runId, ApplyVersion(tc, version))
  }

  /** What posting each selected record comes to, in the order of the selection. */
  function Attempts(server: Server, runId: int, cases: seq<Testcase>, sel: seq<nat>, version: string): (r: seq<CallResult>)
    requires forall k :: 0 <= k < |sel| ==> sel[k] < |cases|
    ensures |r| == |sel|
  {
    seq(|sel|, k requires 0 <= k < |sel| => Attempt(server, runId, cases[sel[k]], version))
  }

  /** The `for testcase in testcases` loop of run mode over the selected records. */
  function PublishLoop(server: Server, runId: int, cases: seq<Testcase>, sel: seq<nat>, version: string): (r: RunState)
    requires forall k :: 0 <= k < |sel| ==> sel[k] < |cases|
    ensures r.available
  {
    RunLoop(sel, Attempts(server, runId, cases, sel, version))
  }

  lemma AttemptsPrefix(server: Server, runId: int, cases: seq<Testcase>, sel: seq<nat>, version: string, k: nat)
    requires forall j :: 0 <= j < |sel| ==> sel[j] < |cases|
    requires k <= |sel|
    ensures Attempts(server, runId, cases, sel[..k], version) == Attempts(server, runId, cases, sel, version)[..k]
  {
  }

  lemma RunLoopStep(sel: seq<nat>, calls: seq<CallResult>, k: nat)
    requires |calls| == |sel| && k < |sel| && RunLoop(sel[..k], calls[..k]).raised.None?
    ensures RunLoop(sel[..k + 1], calls[..k + 1]) == Step(RunLoop(sel[..k], calls[..k]), sel[k], calls[k])
  {
    assert sel[..k + 1][..k] == sel[..k];
    assert calls[..k + 1][..k] == calls[..k];
  }

  lemma PublishLoopStep(server: Server, runId: int, cases: seq<Testcase>, sel: seq<nat>, version: string, k: nat)
    requires forall j :: 0 <= j < |sel| ==> sel[j] < |cases|
    requires k < |sel| && PublishLoop(server, runId, cases, sel[..k], version).raised.None?
    ensures PublishLoop(server, runId, cases, sel[..k + 1], version)
         == Step(PublishLoop(server, runId, cases, sel[..k], version), sel[k], Attempt(server, runId, cases[sel[k]], version))
  {
    var calls := Attempts(server, runId, cases, sel, version);
    AttemptsPrefix(server, runId, cases, sel, version, k);
    AttemptsPrefix(server, runId, cases, sel, version, k + 1);
    RunLoopStep(sel, calls, k);
  }

  /** `publish_results(api, testcases, run_id=runId, ...)` with `runId` non-zero. */
  function RunMode(server: Server, runId: int, cases: seq<Testcase>, version: string, publishBlocked: bool): RunState {
    if !IsTestrunAvailable(server, runId) then RunState(false, [], 0, {}, None)
    else PublishLoop(server, runId, cases, Selection(server.runs[runId].tests, publishBlocked, cases), version)
  }

  /** Once a call has raised, the later records are not looked at. */
  lemma {:induction false} RunLoopStops(sel: seq<nat>, calls: seq<CallResult>, k: nat)
    requires |calls| == |sel| && k <= |sel| && RunLoop(sel[..k], calls[..k]).raised.Some?
    ensures RunLoop(sel, calls) == RunLoop(sel[..k], calls[..k])
  {
    if k < |sel| {
      var n := |sel| - 1;
      assert sel[..n][..k] == sel[..k];
      assert calls[..n][..k] == calls[..k];
      RunLoopStops(sel[..n], calls[..n], k);
    } else {
      assert sel[..k] == sel;
      assert calls[..k] == calls;
    }
  }

  lemma PublishLoopStops(server: Server, runId: int, cases: seq<Testcase>, sel: seq<nat>, version: string, k: nat)
    requires forall j :: 0 <= j < |sel| ==> sel[j] < |cases|
    requires k <= |sel| && PublishLoop(server, runId, cases, sel[..k], version).raised.Some?
    ensures PublishLoop(server, runId, cases, sel, version) == PublishLoop(server, runId, cases, sel[..k], version)
  {
    AttemptsPrefix(server, runId, cases, sel, version, k);
    RunLoopStops(sel, Attempts(server, runId, cases, sel, version), k);
  }

  /** The loop sees the records only through their stamped form, so stamping
      some of them beforehand changes nothing. */
  lemma PublishLoopStampInsensitive(server: Server, runId: int, c1: seq<Testcase>, c2: seq<Testcase>, sel: seq<nat>, version: string)
    requires |c1| == |c2| && forall i :: 0 <= i < |c1| ==> ApplyVersion(c1[i], version) == ApplyVersion(c2[i], version)
    requires forall k :: 0 <= k < |sel| ==> sel[k] < |c1|
    ensures PublishLoop(server, runId, c1, sel, version) == PublishLoop(server, runId, c2, sel, version)
  {
    assert Attempts(server, runId, c1, sel, version) == Attempts(server, runId, c2, sel, version);
  }

  /** Publishing into a run after earlier runs of the same plan stamped some
      records gives what publishing the unstamped list gives. */
  lemma RunModeStampInsensitive(server: Server, runId: int, cases: seq<Testcase>, version: string, touched: set<nat>, publishBlocked: bool)
    ensures RunMode(server, runId, ApplyVersionAt(cases, version, touched), version, publishBlocked)
         == RunMode(server, runId, cases, version, publishBlocked)
  {
    var stamped := ApplyVersionAt(cases, version, touched);
    if IsTestrunAvailable(server, runId) {
      var tests := server.runs[runId].tests;
      SelectionDependsOnIds(tests, publishBlocked, stamped, cases);
      PublishLoopStampInsensitive(server, runId, stamped, cases, Selection(tests, publishBlocked, cases), version);
    }
  }

  /** The run-mode branch of `publish_results`: returns whether the run was
      available, the number of results accepted, the posts sent and the
      exception that ended the loop; stamps the version into the records it
      reaches. */
  method PublishToRun(server: Server, testcases: array<Testcase>, runId: int, version: string, publishBlocked: bool)
    returns (ok: bool, count: nat, log: seq<Post>, raised: Option<Error>)
    modifies testcases
    ensures var st := RunMode(server, runId, old(testcases[..]), version, publishBlocked);
      && ok == st.available && count == st.count && log == st.log && raised == st.raised
      && testcases[..] == ApplyVersionAt(old(testcases[..]), version, st.touched)
  {
    if !IsTestrunAvailable(server, runId) {
      assert testcases[..] == ApplyVersionAt(testcases[..], version, {});
      return false, 0, [], None;
    }
    var tests := GetTests(server, runId).value;
    var selected := Selection(tests, publishBlocked, testcases[..]);
    ok := true;
    count, log, raised := PostSelected(server, testcases, runId, version, selected);
  }

  /** The `for testcase in testcases` loop of run mode, over the records that
      passed the filters: stamp the version, post the result, count the posts
      the server accepted; an exception from `add_result` ends the loop. */
  method PostSelected(server: Server, testcases: array<Testcase>, runId: int, version: string, selected: seq<nat>)
    returns (count: nat, log: seq<Post>, raised: Option<Error>)
    requires forall k :: 0 <= k < |selected| ==> selected[k] < testcases.Length
    modifies testcases
    ensures var st := PublishLoop(server, runId, old(testcases[..]), selected, version);
      && count == st.count && log == st.log && raised == st.raised
      && testcases[..] == ApplyVersionAt(old(testcases[..]), version, st.touched)
  {
    ghost var cases := testcases[..];
    count, log, raised := 0, [], None;
    ghost var st := RunState(true, [], 0, {}, None);
    assert testcases[..] == ApplyVersionAt(cases, version, {});
    for k := 0 to |selected|
      invariant st == PublishLoop(server, runId, cases, selected[..k], version)
      invariant st.raised.None? && count == st.count && log == st.log
      invariant testcases[..] == ApplyVersionAt(cases, version, st.touched)
    {
      var i := selected[k];
      ghost var before := testcases[..];
      if version != "" {
        testcases[i] := testcases[i].(version := Some(version));
      }
      assert testcases[..] == before[i := ApplyVersion(before[i], version)];
      StampOne(cases, version, st.touched, i);
      var call := AddResult(server, runId, testcases[i]);
      PublishLoopStep(server, runId, cases, selected, version, k);
      st := Step(st, i, call);
      if call.Refused? {
        raised := Some(call.error);
        PublishLoopStops(server, runId, cases, selected, version, k + 1);
        return;
      }
      log := log + [call.post];
      if call.Accepted? {
        count := count + 1;
      }
    }
    assert selected[..|selected|] == selected;
  }

  // ---------------------------------------------------------------------------
  // Plan mode and the entry point
  // ---------------------------------------------------------------------------

  /** The call `publish_results(api, testcases, run_id=runId, version=version,
      publish_blocked=publishBlocked)` that plan mode makes for each open run,
      with the plan ID left at 0: a run ID of 0 fails both the run test and the
      plan test, so that call returns False without looking at the run. */
  function PlanRunCall(server: Server, runId: int, cases: seq<Testcase>, version: string, publishBlocked: bool): (r: RunState)
    ensures runId == 0 ==> r.log == [] && r.touched == {} && r.raised.None?
  {
    if runId != 0 then RunMode(server, runId, cases, version, publishBlocked) else RunState(false, [], 0, {}, None)
  }

  /** Run mode repeated over the open runs of a plan, in order, through the
      recursive call; an exception raised in one run ends the whole loop. */
  function PlanLoop(server: Server, runIds: seq<int>, cases: seq<Testcase>, version: string, publishBlocked: bool): (r: RunState)
    ensures r.available
  {
    if runIds == [] then RunState(true, [], 0, {}, None)
    else
      var prev := PlanLoop(server, runIds[..|runIds| - 1], cases, version, publishBlocked);
      if prev.raised.Some? then prev
      else
        var r := PlanRunCall(server, runIds[|runIds| - 1], cases, version, publishBlocked);
        RunState(true, prev.log + r.log, prev.count + r.count, prev.touched + r.touched, r.raised)
  }

  lemma PlanLoopStep(server: Server, runIds: seq<int>, cases: seq<Testcase>, version: string, publishBlocked: bool, j: nat)
    requires j < |runIds| && PlanLoop(server, runIds[..j], cases, version, publishBlocked).raised.None?
    ensures var prev := PlanLoop(server, runIds[..j], cases, version, publishBlocked);
      var r := PlanRunCall(server, runIds[j], cases, version, publishBlocked);
      PlanLoop(server, runIds[..j + 1], cases, version, publishBlocked)
        == RunState(true, prev.log + r.log, prev.count + r.count, prev.touched + r.touched, r.raised)
  {
    assert runIds[..j + 1][..j] == runIds[..j];
  }

  /** One more run of the plan, posted from the list as the earlier runs left it. */
  lemma PlanLoopAdvance(server: Server, runIds: seq<int>, cases: seq<Testcase>, version: string, publishBlocked: bool, j: nat)
    requires j < |runIds| && PlanLoop(server, runIds[..j], cases, version, publishBlocked).raised.None?
    ensures var prev := PlanLoop(server, runIds[..j], cases, version, publishBlocked);
      var cur := ApplyVersionAt(cases, version, prev.touched);
      var r := PlanRunCall(server, runIds[j], cur, version, publishBlocked);
      var next := PlanLoop(server, runIds[..j + 1], cases, version, publishBlocked);
      && next.log == prev.log + r.log && next.raised == r.raised
      && ApplyVersionAt(cur, version, r.touched) == ApplyVersionAt(cases, version, next.touched)
  {
    var prev := PlanLoop(server, runIds[..j], cases, version, publishBlocked);
    PlanLoopStep(server, runIds, cases, version, publishBlocked, j);
    RunModeStampInsensitive(server, runIds[j], cases, version, prev.touched, publishBlocked);
    var r := PlanRunCall(server, runIds[j], cases, version, publishBlocked);
    ApplyVersionAtTwice(cases, version, prev.touched, r.touched);
  }

  lemma {:induction false} PlanLoopStops(server: Server, runIds: seq<int>, cases: seq<Testcase>, version: string, publishBlocked: bool, k: nat)
    requires k <= |runIds| && PlanLoop(server, runIds[..k], cases, version, publishBlocked).raised.Some?
    ensures PlanLoop(server, runIds, cases, version, publishBlocked) == PlanLoop(server, runIds[..k], cases, version, publishBlocked)
  {
    if k < |runIds| {
      var n := |runIds| - 1;
      assert runIds[..n][..k] == runIds[..k];
      PlanLoopStops(server, runIds[..n], cases, version, publishBlocked, k);
    } else {
      assert runIds[..k] == runIds;
    }
  }

  /** What a call of `publish_results` comes to: its return value or the
      exception it raised, the posts it sent, and the records it stamped. */
  datatype Publication = Publication(outcome: Outcome<bool>, log: seq<Post>, touched: set<nat>)

  /** `publish_results(api, testcases, plan_id=planId, ...)` with `planId` non-zero. */
  function PlanMode(server: Server, planId: int, cases: seq<Testcase>, version: string, publishBlocked: bool): RunState {
    if !IsTestplanAvailable(server, planId) then RunState(false, [], 0, {}, None)
    else PlanLoop(server, OpenRuns(server.plans[planId].entries), cases, version, publishBlocked)
  }

  /** The return value (or the exception) and the effects of one of the two modes. */
  function Conclude(st: RunState): Publication {
    Publication(if st.raised.Some? then Raised(st.raised.value) else Returned(st.available), st.log, st.touched)
  }

  /** `publish_results(api, testcases, run_id, plan_id, version, publish_blocked)`:
      a non-zero run ID wins over the plan ID; neither gives `False`. */
  function PublishSpec(server: Server, cases: seq<Testcase>, runId: int, planId: int, version: string, publishBlocked: bool): Publication {
    if runId != 0 then Conclude(RunMode(server, runId, cases, version, publishBlocked))
    else if planId != 0 then Conclude(PlanMode(server, planId, cases, version, publishBlocked))
    else Publication(Returned(false), [], {})
  }

  /** `publish_results`: returns `True` once publishing was done and `False`
      when the run or plan is not available or no ID was given; an exception
      raised while posting propagates. */
  method PublishResults(server: Server, testcases: array<Testcase>, runId: int, planId: int, version: string, publishBlocked: bool)
    returns (outcome: Outcome<bool>, log: seq<Post>)
    modifies testcases
    ensures var p := PublishSpec(server, old(testcases[..]), runId, planId, version, publishBlocked);
      && outcome == p.outcome && log == p.log
      && testcases[..] == ApplyVersionAt(old(testcases[..]), version, p.touched)
  {
    var ok, raised;
    if runId != 0 {
      var count;
      ok, count, log, raised := PublishToRun(server, testcases, runId, version, publishBlocked);
    } else if planId != 0 {
      ok, log, raised := PublishToPlan(server, testcases, planId, version, publishBlocked);
    } else {
      assert testcases[..] == ApplyVersionAt(testcases[..], version, {});
      return Returned(false), [];
    }
    outcome := if raised.Some? then Raised(raised.value) else Returned(ok);
  }

  /** The plan-mode branch of `publish_results`: run mode for each open run of
      the plan, in order, with the same records, version and flag; what each
      run returns is ignored. */
  method PublishToPlan(server: Server, testcases: array<Testcase>, planId: int, version: string, publishBlocked: bool)
    returns (ok: bool, log: seq<Post>, raised: Option<Error>)
    modifies testcases
    ensures var st := PlanMode(server, planId, old(testcases[..]), version, publishBlocked);
      && ok == st.available && log == st.log && raised == st.raised
      && testcases[..] == ApplyVersionAt(old(testcases[..]), version, st.touched)
  {
    if !IsTestplanAvailable(server, planId) {
      assert testcases[..] == ApplyVersionAt(testcases[..], version, {});
      return false, [], None;
    }
    var response := GetAvailableTestruns(server, planId);
    ok := true;
    var runIds := response.value;
    log, raised := PostToRuns(server, testcases, runIds, version, publishBlocked);
  }

  /** The `for run_id in testruns` loop of plan mode. */
  method PostToRuns(server: Server, testcases: array<Testcase>, runIds: seq<int>, version: string, publishBlocked: bool)
    returns (log: seq<Post>, raised: Option<Error>)
    modifies testcases
    ensures var st := PlanLoop(server, runIds, old(testcases[..]), version, publishBlocked);
      && log == st.log && raised == st.raised
      && testcases[..] == ApplyVersionAt(old(testcases[..]), version, st.touched)
  {
    ghost var cases := testcases[..];
    log, raised := [], None;
    ghost var st := RunState(true, [], 0, {}, None);
    assert testcases[..] == ApplyVersionAt(cases, version, {});
    for j := 0 to |runIds|
      invariant st == PlanLoop(server, runIds[..j], cases, version, publishBlocked)
      invariant st.raised.None? && log == st.log
      invariant testcases[..] == ApplyVersionAt(cases, version, st.touched)
    {
      PlanLoopAdvance(server, runIds, cases, version, publishBlocked, j);
      var runLog, runRaised := [], None;
      if runIds[j] != 0 {
        var runOk, count;
        runOk, count, runLog, runRaised := PublishToRun(server, testcases, runIds[j], version, publishBlocked);
      }
      st := PlanLoop(server, runIds[..j + 1], cases, version, publishBlocked);
      log := log + runLog;
      if runRaised.Some? {
        raised := runRaised;
        PlanLoopStops(server, runIds, cases, version, publishBlocked, j + 1);
        return;
      }
    }
    assert runIds[..|runIds|] == runIds;
  }

  // ---------------------------------------------------------------------------
  // Properties of run mode
  // ---------------------------------------------------------------------------

  /** The number of posts of `log` the server rejected. */
  function RejectedCount(server: Server, log: seq<Post>): (n: nat)
    ensures n <= |log|
  {
    if log == [] then 0
    else
      var last := log[|log| - 1];
      RejectedCount(server, log[..|log| - 1]) + (if (last.runId, last.caseId) in server.rejects then 1 else 0)
  }

  /** The loop posts the records in order, one post each: the k-th post is
      what the k-th call sent, and that call did not raise. */
  lemma {:induction false} RunLoopPosts(sel: seq<nat>, calls: seq<CallResult>)
    requires |calls| == |sel|
    ensures var r := RunLoop(sel, calls);
      && |r.log| <= |sel|
      && forall k :: 0 <= k < |r.log| ==> !calls[k].Refused? && calls[k].post == r.log[k]
  {
    if sel != [] {
      var n := |sel| - 1;
      var prev := RunLoop(sel[..n], calls[..n]);
      RunLoopPosts(sel[..n], calls[..n]);
      var r := RunLoop(sel, calls);
      if prev.raised.None? && !calls[n].Refused? {
        RunLoopEnd(sel[..n], calls[..n]);
        assert r.log == prev.log + [calls[n].post];
      }
      forall k | 0 <= k < |prev.log| ensures !calls[k].Refused? && calls[k].post == r.log[k] {
        assert calls[..n][k] == calls[k];
      }
    }
  }

  /** The loop stops at the first exception, which it reports: then the post
      count is the position of the call that raised; otherwise every record
      was posted. A rejected post does not stop it. */
  lemma {:induction false} RunLoopEnd(sel: seq<nat>, calls: seq<CallResult>)
    requires |calls| == |sel|
    ensures var r := RunLoop(sel, calls);
      && (r.raised.None? ==> |r.log| == |sel|)
      && (r.raised.Some? ==> |r.log| < |sel| && calls[|r.log|].Refused? && r.raised.value == calls[|r.log|].error)
  {
    if sel != [] {
      var n := |sel| - 1;
      var prev := RunLoop(sel[..n], calls[..n]);
      RunLoopEnd(sel[..n], calls[..n]);
      if prev.raised.Some? {
        assert calls[..n][|prev.log|] == calls[|prev.log|];
      }
    }
  }

  /** The records the loop stamps: every one without an exception; otherwise
      those up to and including the one whose call raised, and no later one. */
  lemma {:induction false} RunLoopTouched(sel: seq<nat>, calls: seq<CallResult>)
    requires |calls| == |sel|
    ensures var r := RunLoop(sel, calls);
      && (r.raised.None? ==> r.touched == set i | i in sel)
      && (r.raised.Some? ==> |r.log| < |sel| && r.touched == set k | 0 <= k <= |r.log| :: sel[k])
  {
    if sel != [] {
      var n := |sel| - 1;
      var prev := RunLoop(sel[..n], calls[..n]);
      var r := RunLoop(sel, calls);
      RunLoopTouched(sel[..n], calls[..n]);
      RunLoopEnd(sel[..n], calls[..n]);
      if prev.raised.Some? {
        forall k | 0 <= k <= |prev.log| ensures sel[..n][k] == sel[k] {
        }
      } else {
        assert r.touched == prev.touched + {sel[n]};
        assert sel == sel[..n] + [sel[n]];
        if r.raised.Some? {
          assert |r.log| == n;
          forall x ensures x in r.touched <==> exists k :: 0 <= k <= n && sel[k] == x {
            if x in r.touched {
              var k :| 0 <= k < |sel| && sel[k] == x;
            }
          }
        }
      }
    }
  }

  /** Every call that sent a post was rejected exactly when the server rejects
      that (run, case) pair. */
  predicate RejectsAgree(server: Server, calls: seq<CallResult>) {
    forall k :: 0 <= k < |calls| && !calls[k].Refused? ==>
      (calls[k].Rejected? <==> (calls[k].post.runId, calls[k].post.caseId) in server.rejects)
  }

  /** `count` is the number of posts the server accepted. */
  lemma {:induction false} RunLoopCount(server: Server, sel: seq<nat>, calls: seq<CallResult>)
    requires |calls| == |sel| && RejectsAgree(server, calls)
    ensures var r := RunLoop(sel, calls);
      r.count + RejectedCount(server, r.log) == |r.log|
  {
    if sel != [] {
      var n := |sel| - 1;
      var prev := RunLoop(sel[..n], calls[..n]);
      assert RejectsAgree(server, calls[..n]) by {
        forall k | 0 <= k < n && !calls[..n][k].Refused?
          ensures calls[..n][k].Rejected? <==> (calls[..n][k].post.runId, calls[..n][k].post.caseId) in server.rejects
        {
          assert calls[..n][k] == calls[k];
        }
      }
      RunLoopCount(server, sel[..n], calls[..n]);
      var r := RunLoop(sel, calls);
      if prev.raised.None? && !calls[n].Refused? {
        assert r.log == prev.log + [calls[n].post];
        assert r.log[..|r.log| - 1] == prev.log;
      }
    }
  }

  /** Posting record `tc` did not raise and sent post `p`. */
  predicate Sent(server: Server, runId: int, tc: Testcase, version: string, p: Post) {
    var call := Attempt(server, runId, tc, version);
    !call.Refused? && call.post == p
  }

  /** Run mode's loop posts the selected records in order, one post each. */
  lemma PublishLoopPosts(server: Server, runId: int, cases: seq<Testcase>, sel: seq<nat>, version: string)
    requires forall k :: 0 <= k < |sel| ==> sel[k] < |cases|
    ensures var r := PublishLoop(server, runId, cases, sel, version);
      && |r.log| <= |sel|
      && forall k :: 0 <= k < |r.log| ==> Sent(server, runId, cases[sel[k]], version, r.log[k])
  {
    RunLoopPosts(sel, Attempts(server, runId, cases, sel, version));
  }

  /** Run mode's loop stops at the first record whose post raises. */
  lemma PublishLoopEnd(server: Server, runId: int, cases: seq<Testcase>, sel: seq<nat>, version: string)
    requires forall k :: 0 <= k < |sel| ==> sel[k] < |cases|
    ensures var r := PublishLoop(server, runId, cases, sel, version);
      && (r.raised.None? ==> |r.log| == |sel|)
      && (r.raised.Some? ==>
            && |r.log| < |sel|
            && Attempt(server, runId, cases[sel[|r.log|]], version).Refused?
            && r.raised.value == Attempt(server, runId, cases[sel[|r.log|]], version).error)
  {
    RunLoopEnd(sel, Attempts(server, runId, cases, sel, version));
  }

  /** The accepted posts of run mode's loop are counted, the rejected ones not. */
  lemma PublishLoopCount(server: Server, runId: int, cases: seq<Testcase>, sel: seq<nat>, version: string)
    requires forall k :: 0 <= k < |sel| ==> sel[k] < |cases|
    ensures var r := PublishLoop(server, runId, cases, sel, version);
      r.count + RejectedCount(server, r.log) == |r.log|
  {
    RunLoopCount(server, sel, Attempts(server, runId, cases, sel, version));
  }

  /** A record that passes the filters names, once normalised, a case of the
      run, and, when blocked testcases are held back, not a blocked one. */
  lemma EligibleExtracts(tests: seq<RunTest>, publishBlocked: bool, tc: Testcase)
    requires Eligible(tests, publishBlocked, tc)
    ensures ExtractTestcaseId(tc.id).Some?
    ensures ExtractTestcaseId(tc.id).value in CaseIdsOf(tests)
    ensures !publishBlocked ==> ExtractTestcaseId(tc.id).value !in BlockedCaseIds(tests)
  {
    var strs := CaseIdStrings(tests);
    var k :| 0 <= k < |strs| && strs[k] == RemoveChar(tc.id, 'C');
    MemberIdExtracts(tc.id, tests[k].caseId);
    assert CaseIdsOf(tests)[k] == tests[k].caseId;
  }

  /** Run mode posts, in the order of the caller's list, one result per
      selected record until an exception: the k-th post carries the k-th
      selected record's normalised case ID, mapped status and comment, and
      the given version when it is non-empty. Without an exception every
      selected record is posted and stamped; with one, the records stamped are
      the selected ones up to and including the one whose post raised. */
  lemma RunModePostsSelectionInOrder(server: Server, runId: int, cases: seq<Testcase>, version: string, publishBlocked: bool)
    requires IsTestrunAvailable(server, runId)
    ensures var sel := Selection(server.runs[runId].tests, publishBlocked, cases);
      var r := RunMode(server, runId, cases, version, publishBlocked);
      && |r.log| <= |sel|
      && (forall k :: 0 <= k < |r.log| ==>
            && r.log[k].runId == runId
            && ExtractTestcaseId(cases[sel[k]].id) == Some(r.log[k].caseId)
            && StatusId(cases[sel[k]].status) == Some(r.log[k].body.statusId)
            && r.log[k].body.comment == cases[sel[k]].comment
            && r.log[k].body.version == (if version != "" then Some(version) else cases[sel[k]].version))
      && (r.raised.None? ==> |r.log| == |sel| && r.touched == set i | i in sel)
      && (r.raised.Some? ==> |r.log| < |sel| && r.touched == set k | 0 <= k <= |r.log| :: sel[k])
  {
    PublishLoopPosts(server, runId, cases, Selection(server.runs[runId].tests, publishBlocked, cases), version);
    PublishLoopEnd(server, runId, cases, Selection(server.runs[runId].tests, publishBlocked, cases), version);
    var sel := Selection(server.runs[runId].tests, publishBlocked, cases);
    RunLoopTouched(sel, Attempts(server, runId, cases, sel, version));
  }

  /** A result the server rejects is skipped, not fatal: `count` is the number
      of posts less the rejected ones. */
  lemma RunModeCount(server: Server, runId: int, cases: seq<Testcase>, version: string, publishBlocked: bool)
    ensures var r := RunMode(server, runId, cases, version, publishBlocked);
      r.count + RejectedCount(server, r.log) == |r.log|
  {
    if IsTestrunAvailable(server, runId) {
      PublishLoopCount(server, runId, cases, Selection(server.runs[runId].tests, publishBlocked, cases), version);
    }
  }

  /** Some record passes the filters but has a status without a TestRail mapping. */
  predicate HasUnmappedEligible(tests: seq<RunTest>, publishBlocked: bool, cases: seq<Testcase>) {
    exists i :: 0 <= i < |cases| && Eligible(tests, publishBlocked, cases[i]) && StatusId(cases[i].status).None?
  }

  /** Run mode raises exactly when an available run is given and some record
      that passes the filters has an unmapped status, and what it raises is
      the lookup error: the normalisation of a record's ID cannot fail once
      the record has passed the membership filter. */
  lemma RunModeRaisesOnUnmappedStatus(server: Server, runId: int, cases: seq<Testcase>, version: string, publishBlocked: bool)
    ensures var r := RunMode(server, runId, cases, version, publishBlocked);
      && (r.raised.Some? <==> IsTestrunAvailable(server, runId) && HasUnmappedEligible(server.runs[runId].tests, publishBlocked, cases))
      && (r.raised.Some? ==> r.raised == Some(KeyError))
  {
    if IsTestrunAvailable(server, runId) {
      var tests := server.runs[runId].tests;
      var sel := Selection(tests, publishBlocked, cases);
      var r := RunMode(server, runId, cases, version, publishBlocked);
      PublishLoopPosts(server, runId, cases, sel, version);
      PublishLoopEnd(server, runId, cases, sel, version);
      SelectionIsEligible(tests, publishBlocked, cases);
      if r.raised.Some? {
        var i := sel[|r.log|];
        assert i in sel;
        EligibleExtracts(tests, publishBlocked, cases[i]);
        assert Eligible(tests, publishBlocked, cases[i]) && StatusId(cases[i].status).None?;
      } else {
        forall i | 0 <= i < |cases| && Eligible(tests, publishBlocked, cases[i])
          ensures StatusId(cases[i].status).Some?
        {
          assert i in sel;
          var k :| 0 <= k < |sel| && sel[k] == i;
          EligibleExtracts(tests, publishBlocked, cases[i]);
        }
      }
    }
  }

  /** A post of run mode goes to a run of the server, names a case of that
      run, and, when blocked testcases are held back, not one TestRail shows
      as blocked there. */
  predicate PostInRun(server: Server, publishBlocked: bool, p: Post) {
    && p.runId in server.runs
    && p.caseId in CaseIdsOf(server.runs[p.runId].tests)
    && (!publishBlocked ==> p.caseId !in BlockedCaseIds(server.runs[p.runId].tests))
  }

  lemma RunModePostsOnlyRunCases(server: Server, runId: int, cases: seq<Testcase>, version: string, publishBlocked: bool)
    ensures forall p :: p in RunMode(server, runId, cases, version, publishBlocked).log ==>
      p.runId == runId && PostInRun(server, publishBlocked, p)
  {
    if IsTestrunAvailable(server, runId) {
      var tests := server.runs[runId].tests;
      var sel := Selection(tests, publishBlocked, cases);
      var r := RunMode(server, runId, cases, version, publishBlocked);
      PublishLoopPosts(server, runId, cases, sel, version);
      SelectionIsEligible(tests, publishBlocked, cases);
      forall p | p in r.log ensures p.runId == runId && PostInRun(server, publishBlocked, p) {
        var k :| 0 <= k < |r.log| && r.log[k] == p;
        assert sel[k] in sel;
        EligibleExtracts(tests, publishBlocked, cases[sel[k]]);
      }
    }
  }

  lemma {:induction false} InRunIndicesOfMembers(tests: seq<RunTest>, cases: seq<Testcase>)
    requires forall i :: 0 <= i < |cases| ==> InRun(tests, cases[i].id)
    ensures |InRunIndices(tests, cases)| == |cases|
  {
    if cases != [] {
      var n := |cases| - 1;
      InRunIndicesOfMembers(tests, cases[..n]);
    }
  }

  lemma {:induction false} DropBlockedOfUnblocked(tests: seq<RunTest>, cases: seq<Testcase>, idx: seq<nat>)
    requires forall k :: 0 <= k < |idx| ==> idx[k] < |cases|
    requires forall i :: i in idx ==> NotBlocked(tests, cases[i].id)
    ensures DropBlocked(tests, cases, idx) == idx
  {
    if idx != [] {
      var n := |idx| - 1;
      DropBlockedOfUnblocked(tests, cases, idx[..n]);
      assert idx[n] in idx;
      SplitLast(idx);
    }
  }

  /** An available run that holds every record, none of them held back. */
  predicate TakesEveryRecord(server: Server, runId: int, publishBlocked: bool, cases: seq<Testcase>) {
    IsTestrunAvailable(server, runId) && forall i :: 0 <= i < |cases| ==> Eligible(server.runs[runId].tests, publishBlocked, cases[i])
  }

  /** A run that holds every record, none of them held back and all with
      mapped statuses, gets exactly one post per record. */
  lemma RunModePostsEveryRecord(server: Server, runId: int, cases: seq<Testcase>, version: string, publishBlocked: bool)
    requires TakesEveryRecord(server, runId, publishBlocked, cases)
    requires forall i :: 0 <= i < |cases| ==> StatusId(cases[i].status).Some?
    ensures RunMode(server, runId, cases, version, publishBlocked).raised.None?
    ensures |RunMode(server, runId, cases, version, publishBlocked).log| == |cases|
  {
    var tests := server.runs[runId].tests;
    InRunIndicesOfMembers(tests, cases);
    var inRun := InRunIndices(tests, cases);
    if !publishBlocked {
      DropBlockedOfUnblocked(tests, cases, inRun);
    }
    RunModeRaisesOnUnmappedStatus(server, runId, cases, version, publishBlocked);
    RunModePostsSelectionInOrder(server, runId, cases, version, publishBlocked);
  }

  // ---------------------------------------------------------------------------
  // Properties of plan mode and of the entry point
  // ---------------------------------------------------------------------------

  lemma {:induction false} PlanLoopPostsOnlyRunCases(server: Server, runIds: seq<int>, cases: seq<Testcase>, version: string, publishBlocked: bool)
    ensures forall p :: p in PlanLoop(server, runIds, cases, version, publishBlocked).log ==>
      p.runId in runIds && p.runId != 0 && PostInRun(server, publishBlocked, p)
  {
    if runIds != [] {
      var n := |runIds| - 1;
      PlanLoopPostsOnlyRunCases(server, runIds[..n], cases, version, publishBlocked);
      RunModePostsOnlyRunCases(server, runIds[n], cases, version, publishBlocked);
      var prev := PlanLoop(server, runIds[..n], cases, version, publishBlocked);
      forall p | p in PlanLoop(server, runIds, cases, version, publishBlocked).log
        ensures p.runId in runIds && p.runId != 0 && PostInRun(server, publishBlocked, p)
      {
        if p in prev.log {
          assert p.runId in runIds[..n];
        }
      }
    }
  }

  lemma {:induction false} PlanLoopRaisesOnlyKeyError(server: Server, runIds: seq<int>, cases: seq<Testcase>, version: string, publishBlocked: bool)
    ensures var r := PlanLoop(server, runIds, cases, version, publishBlocked);
      r.raised.Some? ==> r.raised == Some(KeyError)
  {
    if runIds != [] {
      var n := |runIds| - 1;
      PlanLoopRaisesOnlyKeyError(server, runIds[..n], cases, version, publishBlocked);
      RunModeRaisesOnUnmappedStatus(server, runIds[n], cases, version, publishBlocked);
    }
  }

  /** The run IDs of `runIds` that plan mode actually publishes into: the
      non-zero ones, in order. */
  function PostingRuns(runIds: seq<int>): (r: seq<int>)
    ensures |r| <= |runIds|
    ensures forall x :: x in r <==> x in runIds && x != 0
  {
    if runIds == [] then []
    else
      var last := runIds[|runIds| - 1];
      PostingRuns(runIds[..|runIds| - 1]) + (if last != 0 then [last] else [])
  }

  /** A run ID of 0 listed by a plan adds nothing: the recursive call for it
      returns False before any post. */
  lemma PlanLoopSkipsRunZero(server: Server, runIds: seq<int>, cases: seq<Testcase>, version: string, publishBlocked: bool)
    ensures PlanLoop(server, runIds + [0], cases, version, publishBlocked) == PlanLoop(server, runIds, cases, version, publishBlocked)
  {
    assert (runIds + [0])[..|runIds|] == runIds;
  }

  /** Plan mode over run IDs that are all 0 posts nothing and stamps nothing. */
  lemma {:induction false} PlanLoopOfZeros(server: Server, runIds: seq<int>, cases: seq<Testcase>, version: string, publishBlocked: bool)
    requires forall j :: 0 <= j < |runIds| ==> runIds[j] == 0
    ensures PlanLoop(server, runIds, cases, version, publishBlocked) == RunState(true, [], 0, {}, None)
  {
    if runIds != [] {
      PlanLoopOfZeros(server, runIds[..|runIds| - 1], cases, version, publishBlocked);
    }
  }

  /** Distributivity, kept out of the larger proof that needs it. */
  lemma MulSucc(n: nat, c: nat)
    ensures (n + 1) * c == n * c + c
  {
  }

  /** Plan mode over runs that each hold every record, none held back and all
      with mapped statuses: every run with a non-zero ID gets one post per
      record, and a run ID of 0 gets none. */
  lemma {:induction false} PlanLoopPostsEveryRecord(server: Server, runIds: seq<int>, cases: seq<Testcase>, version: string, publishBlocked: bool)
    requires forall j :: 0 <= j < |runIds| ==> TakesEveryRecord(server, runIds[j], publishBlocked, cases)
    requires forall i :: 0 <= i < |cases| ==> StatusId(cases[i].status).Some?
    ensures PlanLoop(server, runIds, cases, version, publishBlocked).raised.None?
    ensures |PlanLoop(server, runIds, cases, version, publishBlocked).log| == |PostingRuns(runIds)| * |cases|
  {
    if runIds != [] {
      var n := |runIds| - 1;
      var prev := PlanLoop(server, runIds[..n], cases, version, publishBlocked);
      var last := PlanRunCall(server, runIds[n], cases, version, publishBlocked);
      var m := |PostingRuns(runIds[..n])|;
      PlanLoopPostsEveryRecord(server, runIds[..n], cases, version, publishBlocked);
      assert |prev.log| == m * |cases|;
      assert PlanLoop(server, runIds, cases, version, publishBlocked).log == prev.log + last.log;
      if runIds[n] != 0 {
        RunModePostsEveryRecord(server, runIds[n], cases, version, publishBlocked);
        assert |PostingRuns(runIds)| == m + 1;
        MulSucc(m, |cases|);
      } else {
        assert |PostingRuns(runIds)| == m;
      }
    }
  }

  /** `publish_results` returns False exactly when no ID is given or the run
      (plan) it names is not available, and then posts nothing and stamps no
      record; every other path that does not raise returns True. */
  lemma PublishReturnsFalse(server: Server, cases: seq<Testcase>, runId: int, planId: int, version: string, publishBlocked: bool)
    ensures var p := PublishSpec(server, cases, runId, planId, version, publishBlocked);
      && (p.outcome == Returned(false) <==>
            if runId != 0 then !IsTestrunAvailable(server, runId)
            else planId == 0 || !IsTestplanAvailable(server, planId))
      && (p.outcome == Returned(false) ==> p.log == [] && p.touched == {})
      && (p.outcome.Returned? ==> p.outcome.value || p.log == [])
  {
  }

  /** A non-zero run ID takes precedence: the plan ID is then not looked at. */
  lemma PublishRunIdFirst(server: Server, cases: seq<Testcase>, runId: int, planA: int, planB: int, version: string, publishBlocked: bool)
    requires runId != 0
    ensures PublishSpec(server, cases, runId, planA, version, publishBlocked) == PublishSpec(server, cases, runId, planB, version, publishBlocked)
  {
  }

  /** The only exception that escapes `publish_results` is the status lookup error. */
  lemma PublishRaisesOnlyKeyError(server: Server, cases: seq<Testcase>, runId: int, planId: int, version: string, publishBlocked: bool)
    ensures var p := PublishSpec(server, cases, runId, planId, version, publishBlocked);
      p.outcome.Raised? ==> p.outcome.error == KeyError
  {
    if runId != 0 {
      RunModeRaisesOnUnmappedStatus(server, runId, cases, version, publishBlocked);
    } else if planId != 0 && IsTestplanAvailable(server, planId) {
      PlanLoopRaisesOnlyKeyError(server, OpenRuns(server.plans[planId].entries), cases, version, publishBlocked);
    }
  }

  /** Every post goes to the given run, or to an open run of the given plan,
      and names a case of that run (not a blocked one when blocked testcases
      are held back). */
  lemma PublishPostsOnlyRunCases(server: Server, cases: seq<Testcase>, runId: int, planId: int, version: string, publishBlocked: bool)
    ensures forall p :: p in PublishSpec(server, cases, runId, planId, version, publishBlocked).log ==>
      && p.runId != 0 && PostInRun(server, publishBlocked, p)
      && (runId != 0 ==> p.runId == runId)
      && (runId == 0 ==> planId in server.plans && p.runId in OpenRuns(server.plans[planId].entries))
  {
    if runId != 0 {
      RunModePostsOnlyRunCases(server, runId, cases, version, publishBlocked);
    } else if planId != 0 && IsTestplanAvailable(server, planId) {
      PlanLoopPostsOnlyRunCases(server, OpenRuns(server.plans[planId].entries), cases, version, publishBlocked);
    }
  }

  /** With an empty version the caller's records are left as they were. */
  lemma PublishEmptyVersionKeepsRecords(server: Server, cases: seq<Testcase>, runId: int, planId: int, publishBlocked: bool)
    ensures ApplyVersionAt(cases, "", PublishSpec(server, cases, runId, planId, "", publishBlocked).touched) == cases
  {
  }

  /** Plan mode when every open run of the plan holds every record, none held
      back and all with mapped statuses: True, and one post per record per
      open run with a non-zero ID. */
  lemma PublishPlanPostsEveryRecord(server: Server, cases: seq<Testcase>, planId: int, version: string, publishBlocked: bool)
    requires planId != 0 && IsTestplanAvailable(server, planId)
    requires forall runId :: runId in OpenRuns(server.plans[planId].entries) ==> TakesEveryRecord(server, runId, publishBlocked, cases)
    requires forall i :: 0 <= i < |cases| ==> StatusId(cases[i].status).Some?
    ensures var p := PublishSpec(server, cases, 0, planId, version, publishBlocked);
      && p.outcome == Returned(true)
      && |p.log| == |PostingRuns(OpenRuns(server.plans[planId].entries))| * |cases|
  {
    PlanLoopPostsEveryRecord(server, OpenRuns(server.plans[planId].entries), cases, version, publishBlocked);
  }

  /** A plan whose open runs all have ID 0 is published into no run at all:
      each recursive call returns False at once, and the plan call returns True. */
  lemma PublishPlanOfRunZeroPostsNothing(server: Server, cases: seq<Testcase>, planId: int, version: string, publishBlocked: bool)
    requires planId != 0 && IsTestplanAvailable(server, planId)
    requires forall x :: x in OpenRuns(server.plans[planId].entries) ==> x == 0
    ensures PublishSpec(server, cases, 0, planId, version, publishBlocked) == Publication(Returned(true), [], {})
  {
    var runIds := OpenRuns(server.plans[planId].entries);
    assert forall j :: 0 <= j < |runIds| ==> runIds[j] == 0 by {
      forall j | 0 <= j < |runIds| ensures runIds[j] == 0 {
        assert runIds[j] in runIds;
      }
    }
    PlanLoopOfZeros(server, runIds, cases, version, publishBlocked);
  }
}
