/** The TestRail helpers of testrail_utils.py, over an abstract server.

    The HTTP client is replaced by a `Server` value: what `get_run`, `get_plan`
    and `get_tests` would return, and the set of (run, case) pairs for which
    `add_result_for_case` answers with an API error. Every POST is recorded as
    a `Post` value in a call log instead of being sent. */
module TestRailUtils {
  import opened Common

  // ---------------------------------------------------------------------------
  // Server state and records
  // ---------------------------------------------------------------------------

  /** One entry of `get_tests/{run_id}`: the case it runs and its current status. */
  datatype RunTest = RunTest(caseId: nat, statusId: int)

  /** What `get_run/{run_id}` reports, plus the run's tests. */
  datatype Run = Run(isCompleted: bool, tests: seq<RunTest>)

  /** A run as listed inside a plan entry. */
  datatype PlanRun = PlanRun(id: int, isCompleted: bool)

  datatype PlanEntry = PlanEntry(runs: seq<PlanRun>)

  /** What `get_plan/{plan_id}` reports. */
  datatype Plan = Plan(isCompleted: bool, entries: seq<PlanEntry>)

  /** The remote TestRail instance: runs and plans by ID, and the (run, case)
      pairs whose `add_result_for_case` call fails with an API error. */
  datatype Server = Server(runs: map<int, Run>, plans: map<int, Plan>, rejects: set<(int, nat)>)

  /** The exceptions that can escape the helpers: `APIError` from the client,
      `KeyError` from the status map, `ValueError` from an integer conversion. */
  datatype Error = ApiError | KeyError | ValueError

  /** A call that either returns a value or raises. */
  datatype Outcome<+T> = Returned(value: T) | Raised(error: Error)

  /** A result record (the dictionary built from a Robot Framework test). A key
      missing from the dictionary is `None` here; a duration of 0 means none. */
  datatype Testcase = Testcase(
    id: string,
    status: string,
    name: string,
    comment: Option<string>,
    duration: nat,
    version: Option<string>)

  /** The JSON body of an `add_result_for_case` request; an absent key is `None`. */
  datatype ResultBody = ResultBody(
    statusId: int,
    comment: Option<string>,
    version: Option<string>,
    elapsed: Option<string>)

  /** One POST to `add_result_for_case/{runId}/{caseId}`. */
  datatype Post = Post(runId: int, caseId: nat, body: ResultBody)

  /** What one attempt to post a result comes to: the request was sent and
      accepted, the request was sent and the server raised an API error, or an
      exception was raised before anything was sent. */
  datatype CallResult = Accepted(post: Post) | Rejected(post: Post) | Refused(error: Error)

  // ---------------------------------------------------------------------------
  // Status mapping
  // ---------------------------------------------------------------------------

  const PassStatusId := 1
  const BlockedStatusId := 2
  const FailStatusId := 5

  /** `ROBOTFWK_TO_TESTRAIL_STATUS` */
  const RobotToTestRailStatus: map<string, int> := map["PASS" := PassStatusId, "FAIL" := FailStatusId]

  /** Looking a Robot Framework status up in the map; `None` is the `KeyError`. */
  function StatusId(status: string): (r: Option<int>)
    ensures r == Some(1) <==> status == "PASS"
    ensures r == Some(5) <==> status == "FAIL"
    ensures r.None? <==> status != "PASS" && status != "FAIL"
  {
    if status in RobotToTestRailStatus then Some(RobotToTestRailStatus[status]) else None
  }

  // ---------------------------------------------------------------------------
  // Availability checks and plan flattening
  // ---------------------------------------------------------------------------

  /** `send_get('get_run/{id}')`: the run, or an API error when there is none. */
  function GetRun(server: Server, runId: int): (r: Outcome<Run>)
    ensures r.Returned? <==> runId in server.runs
    ensures r.Returned? ==> r.value == server.runs[runId]
    ensures r.Raised? ==> r.error == ApiError
  {
    if runId in server.runs then Returned(server.runs[runId]) else Raised(ApiError)
  }

  /** `send_get('get_plan/{id}')` */
  function GetPlan(server: Server, planId: int): (r: Outcome<Plan>)
    ensures r.Returned? <==> planId in server.plans
    ensures r.Returned? ==> r.value == server.plans[planId]
    ensures r.Raised? ==> r.error == ApiError
  {
    if planId in server.plans then Returned(server.plans[planId]) else Raised(ApiError)
  }

  /** `is_testrun_available`: the API error of a missing run is caught and
      reads as "not available", so the check never raises. */
  function IsTestrunAvailable(server: Server, runId: int): (r: bool)
    ensures r <==> runId in server.runs && !server.runs[runId].isCompleted
  {
    match GetRun(server, runId)
    case Returned(run) => run.isCompleted == false
    case Raised(_) => false
  }

  /** `is_testplan_available`, the same contract for plans. */
  function IsTestplanAvailable(server: Server, planId: int): (r: bool)
    ensures r <==> planId in server.plans && !server.plans[planId].isCompleted
  {
    match GetPlan(server, planId)
    case Returned(plan) => plan.isCompleted == false
    case Raised(_) => false
  }

  /** `get_tests` (the run's current tests); an unknown run raises. */
  function GetTests(server: Server, runId: int): (r: Outcome<seq<RunTest>>)
    ensures r.Returned? <==> runId in server.runs
    ensures r.Returned? ==> r.value == server.runs[runId].tests
    ensures r.Raised? ==> r.error == ApiError
  {
    match GetRun(server, runId)
    case Returned(run) => Returned(run.tests)
    case Raised(e) => Raised(e)
  }

  /** IDs of the open runs among `runs`, in order. */
  function OpenRunsIn(runs: seq<PlanRun>): seq<int> {
    if runs == [] then []
    else OpenRunsIn(runs[..|runs| - 1]) + (if runs[|runs| - 1].isCompleted then [] else [runs[|runs| - 1].id])
  }

  /** IDs of the open runs of all entries, entry by entry, in discovery order. */
  function OpenRuns(entries: seq<PlanEntry>): seq<int> {
    if entries == [] then []
    else OpenRuns(entries[..|entries| - 1]) + OpenRunsIn(entries[|entries| - 1].runs)
  }

  /** `get_available_testruns`: the nested loop over `entries` and their `runs`.
      The plan is fetched without a `try`, so a missing plan raises. */
  method GetAvailableTestruns(server: Server, planId: int) returns (r: Outcome<seq<int>>)
    ensures planId in server.plans ==> r == Returned(OpenRuns(server.plans[planId].entries))
    ensures planId !in server.plans ==> r == Raised(ApiError)
  {
    var response := GetPlan(server, planId);
    if response.Raised? {
      return Raised(response.error);
    }
    var entries := response.value.entries;
    var testruns: seq<int> := [];
    for i := 0 to |entries|
      invariant testruns == OpenRuns(entries[..i])
    {
      var runs := entries[i].runs;
      for j := 0 to |runs|
        invariant testruns == OpenRuns(entries[..i]) + OpenRunsIn(runs[..j])
      {
        assert runs[..j + 1][..j] == runs[..j];
        if !runs[j].isCompleted {
          testruns := testruns + [runs[j].id];
        }
      }
      assert runs[..|runs|] == runs;
      assert entries[..i + 1][..i] == entries[..i];
    }
    assert entries[..|entries|] == entries;
    return Returned(testruns);
  }

  /** `runs` lists a run with ID `x` that is not completed. */
  predicate ListsOpenRun(runs: seq<PlanRun>, x: int) {
    exists j :: 0 <= j < |runs| && runs[j].id == x && !runs[j].isCompleted
  }

  lemma {:induction false} OpenRunsInMembership(runs: seq<PlanRun>, x: int)
    ensures x in OpenRunsIn(runs) <==> ListsOpenRun(runs, x)
  {
    if runs != [] {
      var n := |runs| - 1;
      OpenRunsInMembership(runs[..n], x);
      if x in OpenRunsIn(runs[..n]) {
        var j :| 0 <= j < n && runs[..n][j].id == x && !runs[..n][j].isCompleted;
        assert runs[j] == runs[..n][j];
      }
      if ListsOpenRun(runs, x) {
        var j :| 0 <= j < |runs| && runs[j].id == x && !runs[j].isCompleted;
        if j < n {
          assert runs[..n][j] == runs[j];
        }
      }
    }
  }

  /** A run ID is returned iff some entry lists it as a run that is not completed. */
  lemma {:induction false} OpenRunsMembership(entries: seq<PlanEntry>, x: int)
    ensures x in OpenRuns(entries) <==> exists i :: 0 <= i < |entries| && ListsOpenRun(entries[i].runs, x)
  {
    if entries != [] {
      var n := |entries| - 1;
      var prefix := OpenRuns(entries[..n]);
      var last := OpenRunsIn(entries[n].runs);
      assert OpenRuns(entries) == prefix + last;
      OpenRunsMembership(entries[..n], x);
      OpenRunsInMembership(entries[n].runs, x);
      if x in prefix {
        var i :| 0 <= i < n && ListsOpenRun(entries[..n][i].runs, x);
        assert entries[i] == entries[..n][i];
      } else if x in last {
        assert ListsOpenRun(entries[n].runs, x);
      }
      if exists i :: 0 <= i < |entries| && ListsOpenRun(entries[i].runs, x) {
        var i :| 0 <= i < |entries| && ListsOpenRun(entries[i].runs, x);
        if i < n {
          assert entries[..n][i] == entries[i];
          assert x in prefix;
        } else {
          assert x in last;
        }
      }
    }
  }

  /** The plan of the unit test: three entries with runs 59 (open), 60 (completed)
      and 61 (open) give [59, 61]. */
  lemma OpenRunsOfSamplePlan()
    ensures OpenRuns([PlanEntry([PlanRun(59, false)]), PlanEntry([PlanRun(60, true)]),
                      PlanEntry([PlanRun(61, false)])]) == [59, 61]
  {
    var e := [PlanEntry([PlanRun(59, false)]), PlanEntry([PlanRun(60, true)]), PlanEntry([PlanRun(61, false)])];
    assert e[..2][..1] == e[..1];
    assert e[..1][..0] == [];
    assert e[..3] == e;
    assert OpenRunsIn([PlanRun(59, false)]) == [59] by {
      assert [PlanRun(59, false)][..0] == [];
    }
    assert OpenRunsIn([PlanRun(60, true)]) == [] by {
      assert [PlanRun(60, true)][..0] == [];
    }
    assert OpenRunsIn([PlanRun(61, false)]) == [61] by {
      assert [PlanRun(61, false)][..0] == [];
    }
    assert OpenRuns(e[..1]) == [59];
    assert OpenRuns(e[..2]) == [59];
    assert OpenRuns(e[..3]) == [59, 61];
  }

  // ---------------------------------------------------------------------------
  // Case-ID normalisation (extract_testcase_id)
  // ---------------------------------------------------------------------------

  /** The ASCII characters Python's `str.split()` separates on. */
  predicate IsSpace(c: char) {
    c == ' ' || '\t' <= c <= '\r' || '\U{1C}' <= c <= '\U{1F}'
  }

  function SkipSpaces(s: string): (r: string)
    ensures r == [] || !IsSpace(r[0])
  {
    if s != [] && IsSpace(s[0]) then SkipSpaces(s[1..]) else s
  }

  function TakeToken(s: string): (r: string)
    ensures forall k :: 0 <= k < |r| ==> !IsSpace(r[k])
  {
    if s == [] || IsSpace(s[0]) then [] else [s[0]] + TakeToken(s[1..])
  }

  /** `s.split()[0]`, or "" when `s` holds no token. */
  function FirstToken(s: string): string {
    TakeToken(SkipSpaces(s))
  }

  /** `extract_testcase_id`: the first whitespace-separated token with every
      non-digit dropped, read as a decimal integer; `None` when no digit is left. */
  function ExtractTestcaseId(s: string): (r: Option<nat>)
    ensures r.None? <==> forall k :: 0 <= k < |FirstToken(s)| ==> !IsDigit(FirstToken(s)[k])
  {
    var digits := KeepDigits(FirstToken(s));
    KeepDigitsEmpty(FirstToken(s));
    if digits == "" then None else Some(DigitsValue(digits))
  }

  lemma {:induction false} TakeTokenOfWord(t: string, rest: string)
    requires forall k :: 0 <= k < |t| ==> !IsSpace(t[k])
    requires rest == [] || IsSpace(rest[0])
    ensures TakeToken(t + rest) == t
  {
    if t == [] {
      assert t + rest == rest;
    } else {
      assert (t + rest)[1..] == t[1..] + rest;
      TakeTokenOfWord(t[1..], rest);
    }
  }

  /** A case marker (`C`, `c` or none) followed by the decimal rendering of `n`,
      alone or before a space, normalises back to `n`. */
  lemma ExtractTestcaseIdRoundTrip(marker: string, n: nat, rest: string)
    requires marker == "" || marker == "C" || marker == "c"
    requires rest == [] || IsSpace(rest[0])
    ensures ExtractTestcaseId(marker + NatToString(n) + rest) == Some(n)
  {
    var d := NatToString(n);
    var word := marker + d;
    assert marker + d + rest == word + rest;
    assert forall k :: 0 <= k < |word| ==> !IsSpace(word[k]) by {
      forall k | 0 <= k < |word| ensures !IsSpace(word[k]) {
        if k >= |marker| {
          assert word[k] == d[k - |marker|];
        }
      }
    }
    assert word != [] && !IsSpace((word + rest)[0]);
    assert SkipSpaces(word + rest) == word + rest;
    TakeTokenOfWord(word, rest);
    assert FirstToken(word + rest) == word;
    KeepDigitsAppend(marker, d);
    KeepDigitsOfDigits(d);
    assert KeepDigits(marker) == "" by {
      if marker != "" {
        assert marker[1..] == "";
      }
    }
    assert KeepDigits(word) == d;
    DigitsValueOfNatToString(n);
  }

  /** A string that equals `str(c)` once its `C`s are removed (the membership
      test of publish_results) normalises to `c`. */
  lemma MemberIdExtracts(id: string, c: nat)
    requires RemoveChar(id, 'C') == NatToString(c)
    ensures ExtractTestcaseId(id) == Some(c)
  {
    RemoveCDigitsOnly(id);
    RemoveCIsKeepDigits(id);
    assert id != [];
    assert forall k :: 0 <= k < |id| ==> !IsSpace(id[k]);
    assert SkipSpaces(id) == id;
    TakeTokenOfWord(id, []);
    assert id + [] == id;
    DigitsValueOfNatToString(c);
  }

  lemma RenderedSamples()
    ensures NatToString(1234) == "1234"
    ensures NatToString(9876) == "9876"
    ensures NatToString(1111) == "1111"
  {
    assert NatToString(123) == "123" by {
      assert NatToString(12) == "12";
    }
    assert NatToString(987) == "987" by {
      assert NatToString(98) == "98";
    }
    assert NatToString(111) == "111" by {
      assert NatToString(11) == "11";
    }
  }

  /** The accepted cases of the unit test of `extract_testcase_id`. */
  lemma ExtractTestcaseIdExamples()
    ensures ExtractTestcaseId("C1234") == Some(1234)
    ensures ExtractTestcaseId("c1234") == Some(1234)
    ensures ExtractTestcaseId("C1234 C9874") == Some(1234)
    ensures ExtractTestcaseId("1234") == Some(1234)
  {
    RenderedSamples();
    ExtractTestcaseIdRoundTrip("C", 1234, "");
    assert "C1234" == "C" + NatToString(1234) + "";
    ExtractTestcaseIdRoundTrip("c", 1234, "");
    assert "c1234" == "c" + NatToString(1234) + "";
    ExtractTestcaseIdRoundTrip("C", 1234, " C9874");
    assert "C1234 C9874" == "C" + NatToString(1234) + " C9874";
    ExtractTestcaseIdRoundTrip("", 1234, "");
    assert "1234" == "" + NatToString(1234) + "";
  }

  lemma {:induction false} KeepDigitsOfNonDigits(w: string)
    requires forall k :: 0 <= k < |w| ==> !IsDigit(w[k])
    ensures KeepDigits(w) == ""
  {
    if w != [] {
      KeepDigitsOfNonDigits(w[1..]);
    }
  }

  /** A first token without any digit gives `None`, whatever follows it. */
  lemma ExtractTestcaseIdOfWord(w: string, rest: string)
    requires w != [] && forall k :: 0 <= k < |w| ==> !IsDigit(w[k]) && !IsSpace(w[k])
    requires rest == [] || IsSpace(rest[0])
    ensures ExtractTestcaseId(w + rest) == None
  {
    assert SkipSpaces(w + rest) == w + rest;
    TakeTokenOfWord(w, rest);
    KeepDigitsOfNonDigits(w);
  }

  /** The error cases of the same unit test: no token, or a first token without a digit. */
  lemma ExtractTestcaseIdRejects()
    ensures ExtractTestcaseId("") == None
    ensures ExtractTestcaseId("test") == None
    ensures ExtractTestcaseId("test C1234") == None
  {
    ExtractTestcaseIdOfWord("test", "");
    assert "test" + "" == "test";
    ExtractTestcaseIdOfWord("test", " C1234");
    assert "test" + " C1234" == "test C1234";
  }

  // ---------------------------------------------------------------------------
  // Posting results
  // ---------------------------------------------------------------------------

  /** Sends `post`; the server accepts it unless it rejects this (run, case) pair. */
  function Send(server: Server, post: Post): (r: CallResult)
    ensures !r.Refused? && r.post == post
    ensures r.Rejected? <==> (post.runId, post.caseId) in server.rejects
  {
    if (post.runId, post.caseId) in server.rejects then Rejected(post) else Accepted(post)
  }

  /** `"<duration>s"`, the `elapsed` field of a result. */
  function Elapsed(duration: nat): string {
    NatToString(duration) + "s"
  }

  /** Reads an `elapsed` string back into seconds. */
  function ElapsedSeconds(e: string): Option<nat> {
    if |e| >= 2 && e[|e| - 1] == 's' && AllDigits(e[..|e| - 1])
    then Some(DigitsValue(e[..|e| - 1])) else None
  }

  lemma ElapsedRoundTrip(duration: nat)
    ensures ElapsedSeconds(Elapsed(duration)) == Some(duration)
  {
    var e := Elapsed(duration);
    assert e[..|e| - 1] == NatToString(duration);
    DigitsValueOfNatToString(duration);
  }

  /** `add_result(run_id, testcase)`: maps the status (an unknown one raises
      `KeyError` before anything is sent), normalises the case ID (one that
      does not normalise raises `ValueError`), and posts `status_id` plus
      `comment`, `version` and `elapsed` when the record has them. */
  function AddResult(server: Server, runId: int, tc: Testcase): (r: CallResult)
    ensures r.Refused? <==> StatusId(tc.status).None? || ExtractTestcaseId(tc.id).None?
    ensures r.Refused? ==> r.error == (if StatusId(tc.status).None? then KeyError else ValueError)
    ensures !r.Refused? ==>
      && r.post.runId == runId
      && ExtractTestcaseId(tc.id) == Some(r.post.caseId)
      && StatusId(tc.status) == Some(r.post.body.statusId)
      && r.post.body.comment == tc.comment
      && r.post.body.version == tc.version
      && (r.post.body.elapsed.Some? <==> tc.duration > 0)
      && (tc.duration > 0 ==> ElapsedSeconds(r.post.body.elapsed.value) == Some(tc.duration))
    ensures r.Rejected? <==> !r.Refused? && (runId, r.post.caseId) in server.rejects
  {
    match StatusId(tc.status)
    case None => Refused(KeyError)
    case Some(statusId) =>
      match ExtractTestcaseId(tc.id)
      case None => Refused(ValueError)
      case Some(caseId) =>
        var elapsed := if tc.duration > 0 then (ElapsedRoundTrip(tc.duration); Some(Elapsed(tc.duration))) else None;
        Send(server, Post(runId, caseId, ResultBody(statusId, tc.comment, tc.version, elapsed)))
  }

  lemma SampleIdsExtract()
    ensures ExtractTestcaseId("C9876") == Some(9876)
    ensures ExtractTestcaseId("C1111") == Some(1111)
  {
    RenderedSamples();
    ExtractTestcaseIdRoundTrip("C", 9876, "");
    assert "C9876" == "C" + NatToString(9876) + "";
    ExtractTestcaseIdRoundTrip("C", 1111, "");
    assert "C1111" == "C" + NatToString(1111) + "";
  }

  lemma SampleElapsed()
    ensures Elapsed(60) == "60s"
  {
    assert NatToString(60) == "60" by {
      assert NatToString(6) == "6";
    }
  }

  /** The first call of the unit test of `add_result`: no duration, so no `elapsed`. */
  lemma AddResultFailedExample(server: Server)
    requires server.rejects == {}
    ensures AddResult(server, 1, Testcase("C9876", "FAIL", "Testrail2", Some("ERROR!"), 0, None))
         == Accepted(Post(1, 9876, ResultBody(5, Some("ERROR!"), None, None)))
  {
    SampleIdsExtract();
  }

  /** The second call of the same test: version and a 60-second `elapsed`. */
  lemma AddResultPassedExample(server: Server)
    requires server.rejects == {}
    ensures AddResult(server, 1, Testcase("C1111", "PASS", "Testrail3", None, 60, Some("1.0.2")))
         == Accepted(Post(1, 1111, ResultBody(1, None, Some("1.0.2"), Some("60s"))))
  {
    SampleIdsExtract();
    SampleElapsed();
  }

  /** `int(testcase['id'].replace('C', ''))` for the IDs that consist of digits
      once the `C`s are removed; any other ID raises `ValueError`. */
  function CaseIdOfBulkId(id: string): (r: Option<nat>)
    ensures r.Some? <==> RemoveChar(id, 'C') != "" && AllDigits(RemoveChar(id, 'C'))
  {
    var digits := RemoveChar(id, 'C');
    if digits != "" && AllDigits(digits) then Some(DigitsValue(digits)) else None
  }

  /** One iteration of `add_results`: status lookup, then ID conversion, then the post. */
  function AddResultsItem(server: Server, runId: int, tc: Testcase): CallResult {
    match StatusId(tc.status)
    case None => Refused(KeyError)
    case Some(statusId) =>
      match CaseIdOfBulkId(tc.id)
      case None => Refused(ValueError)
      case Some(caseId) => Send(server, Post(runId, caseId, ResultBody(statusId, None, None, None)))
  }

  /** The calls made by `add_results` and the exception that ended it, if any. */
  datatype BulkState = BulkState(log: seq<Post>, error: Option<Error>)

  /** `add_results` over `tcs`: one post per testcase, in order, until the first
      exception, which propagates. */
  function AddResultsRun(server: Server, runId: int, tcs: seq<Testcase>): BulkState {
    if tcs == [] then BulkState([], None)
    else
      var prev := AddResultsRun(server, runId, tcs[..|tcs| - 1]);
      if prev.error.Some? then prev
      else match AddResultsItem(server, runId, tcs[|tcs| - 1])
        case Accepted(p) => BulkState(prev.log + [p], None)
        case Rejected(p) => BulkState(prev.log + [p], Some(ApiError))
        case Refused(e) => BulkState(prev.log, Some(e))
  }

  /** Once an exception has been raised, the later testcases are not looked at. */
  lemma {:induction false} AddResultsRunStops(server: Server, runId: int, tcs: seq<Testcase>, i: nat)
    requires i <= |tcs| && AddResultsRun(server, runId, tcs[..i]).error.Some?
    ensures AddResultsRun(server, runId, tcs) == AddResultsRun(server, runId, tcs[..i])
  {
    if i < |tcs| {
      var n := |tcs| - 1;
      assert tcs[..n][..i] == tcs[..i];
      AddResultsRunStops(server, runId, tcs[..n], i);
    } else {
      assert tcs[..i] == tcs;
    }
  }

  /** `add_results(testrun_id, testcases)` */
  method AddResults(server: Server, runId: int, tcs: seq<Testcase>) returns (log: seq<Post>, error: Option<Error>)
    ensures BulkState(log, error) == AddResultsRun(server, runId, tcs)
  {
    log, error := [], None;
    for i := 0 to |tcs|
      invariant error.None?
      invariant BulkState(log, error) == AddResultsRun(server, runId, tcs[..i])
    {
      assert tcs[..i + 1][..i] == tcs[..i];
      var call := AddResultsItem(server, runId, tcs[i]);
      match call {
        case Accepted(p) =>
          log := log + [p];
        case Rejected(p) =>
          log := log + [p];
          AddResultsRunStops(server, runId, tcs, i + 1);
          return log, Some(ApiError);
        case Refused(e) =>
          AddResultsRunStops(server, runId, tcs, i + 1);
          return log, Some(e);
      }
    }
    assert tcs[..|tcs|] == tcs;
  }

  /** `p` is the post `add_results` sends for `tc`: the mapped status is the
      only body field, the case ID is the converted ID. */
  predicate BulkPostOf(runId: int, tc: Testcase, p: Post) {
    && StatusId(tc.status) == Some(p.body.statusId)
    && CaseIdOfBulkId(tc.id) == Some(p.caseId)
    && p.runId == runId
    && p.body == ResultBody(p.body.statusId, None, None, None)
  }

  lemma AddResultsItemPost(server: Server, runId: int, tc: Testcase)
    ensures var call := AddResultsItem(server, runId, tc);
      !call.Refused? ==> BulkPostOf(runId, tc, call.post)
  {
  }

  /** The k-th post of `add_results` is the k-th testcase's; the run ends
      early only on an exception. */
  lemma {:induction false} AddResultsPostsInOrder(server: Server, runId: int, tcs: seq<Testcase>)
    ensures var st := AddResultsRun(server, runId, tcs);
      && |st.log| <= |tcs|
      && (st.error.None? ==> |st.log| == |tcs|)
      && forall k :: 0 <= k < |st.log| ==> BulkPostOf(runId, tcs[k], st.log[k])
  {
    if tcs != [] {
      var n := |tcs| - 1;
      AddResultsPostsInOrder(server, runId, tcs[..n]);
      var prev := AddResultsRun(server, runId, tcs[..n]);
      var st := AddResultsRun(server, runId, tcs);
      AddResultsItemPost(server, runId, tcs[n]);
      if prev.error.None? && !AddResultsItem(server, runId, tcs[n]).Refused? {
        assert st.log == prev.log + [AddResultsItem(server, runId, tcs[n]).post];
      }
      forall k | 0 <= k < |prev.log| ensures BulkPostOf(runId, tcs[k], st.log[k]) {
        assert tcs[..n][k] == tcs[k];
      }
    }
  }

  /** With every status mapped, every ID numeric and no rejection, `add_results`
      completes and posts exactly once per testcase. */
  lemma {:induction false} AddResultsCompletes(server: Server, runId: int, tcs: seq<Testcase>)
    requires forall k :: 0 <= k < |tcs| ==>
      StatusId(tcs[k].status).Some? && CaseIdOfBulkId(tcs[k].id).Some? &&
      (runId, CaseIdOfBulkId(tcs[k].id).value) !in server.rejects
    ensures AddResultsRun(server, runId, tcs).error.None?
    ensures |AddResultsRun(server, runId, tcs).log| == |tcs|
  {
    if tcs != [] {
      var n := |tcs| - 1;
      AddResultsCompletes(server, runId, tcs[..n]);
    }
  }
}
