# robotframework-testrail, modelled in Dafny

A model of the core of robotframework-testrail. That tool reads a Robot Framework
result, finds the TestRail case ID of each test, and publishes the results into a
TestRail Test Run or into every open run of a Test Plan that has a non-zero ID. The model covers the
two stages that hold the logic:

- **Collecting records** (`ResultVisitor`). The visitor walks the parsed result
  tree. For each suite it finds the case IDs: from `test_case_id=` tags, or else
  from the suite's `TEST_CASE_ID` metadata. It turns every (name, test, ID)
  triple into a result record carrying a status, a comment and a duration.
  `TestRailResultVisitor` is a class whose list field the methods extend,
  exactly as `end_suite` appends to `result_testcase_list`.
- **Publishing** (`Publisher`, on top of `TestRailUtils`). `publish_results`
  works in one of two modes:
  - Run mode:
    - checks that the run is available;
    - keeps the records whose ID, with its `C`s removed, is a case of the run;
    - optionally drops the cases TestRail shows as blocked (status 2);
    - stamps the version into each remaining record, in place;
    - posts each record with `add_result`.
  - Plan mode repeats run mode for every open run of the plan with a non-zero ID.
  - A result the server rejects is skipped and not counted. An unmapped
    status raises `KeyError`, which ends publishing and propagates to the
    caller.

The TestRail server is a value, `TestRailUtils.Server`. It holds the runs and
their tests, the plans, and the (run, case) pairs for which
`add_result_for_case` answers with an API error. Every POST is recorded as a
`Post` in a call log rather than sent. The caller's list of result
dictionaries is an `array<Testcase>`. Setting `testcase['version']` updates an
element of the array, because the dictionaries the run loop changes are the
caller's own. Each method is proved against a specification function:
`RunMode`, `PlanMode`, `PublishSpec`, `Collected` and `OpenRuns`. The lemmas
state what the source promises about those functions.

The model follows the code as written, also where a reader might expect otherwise:

- The status map has only PASS→1 and FAIL→5. A SKIP status, for example,
  raises `KeyError`.
- The run-membership filter is always applied.
- Per-case API errors are swallowed. Every other exception propagates; in the
  model that is the `KeyError` of an unmapped status (see `## Left out` for the
  API errors of the fetches).
- Tag IDs are taken as `tag[len('test_case_id='):]`, counted from the start of
  the tag, even when the pattern matched further in.
- Plan mode publishes into each open run through the recursive call
  `publish_results(..., run_id=_run_id, ...)` with no plan ID. For a listed
  run ID of 0 that call returns False without posting, so such a run gets
  nothing.

## Model

| member | source | states |
|---|---|---|
| Common.NatToString | robotframework2testrail.py:129 | `str(case_id)` has at least one digit, only digits, and no leading zero |
| Common.DigitsValueOfNatToString | robotframework2testrail.py:129-131 | reading the decimal rendering of a case ID back gives the same ID |
| Common.NatToStringInjective | robotframework2testrail.py:129-131 | distinct case IDs have distinct string forms, so the membership test cannot confuse two cases |
| Common.ReplaceChar | robotframework2testrail.py:131 | after `s.replace(c, repl)` with `c` not in `repl`, no `c` is left, and every other character came from `s` or `repl` |
| Common.RemoveCIsKeepDigits | testrail_utils.py:30 | on a string of digits and `C`s, removing the `C`s is the same as keeping the digits |
| Common.KeepDigitsEmpty | robotframework2testrail.py:143 | dropping non-digits leaves nothing exactly when the string holds no digit |
| Common.RemoveCDigitsOnly | robotframework2testrail.py:131 | if removing the `C`s leaves only digits, every other character was a digit |
| Common.KeepDigitsAppend | robotframework2testrail.py:143 | dropping non-digits distributes over concatenation |
| TestRailUtils.StatusId | testrail_utils.py:12-15 | PASS maps to 1, FAIL maps to 5, and every other status has no mapping (the KeyError) |
| TestRailUtils.GetRun | testrail_utils.py:40 | defines the abstract server call `get_run`: the stored run when the run exists; otherwise an API error |
| TestRailUtils.GetPlan | testrail_utils.py:53 | defines the abstract server call `get_plan`: the stored plan when it exists; otherwise an API error |
| TestRailUtils.IsTestrunAvailable | testrail_utils.py:33-44 | true iff the run exists and is not completed; a missing run gives false, never an exception |
| TestRailUtils.IsTestplanAvailable | testrail_utils.py:46-57 | true iff the plan exists and is not completed |
| TestRailUtils.GetTests | test/test_testrail_utils.py:129-134 | defines the abstract server call `get_tests`: the run's tests when the run exists; otherwise an API error |
| TestRailUtils.GetAvailableTestruns | testrail_utils.py:59-71 | the nested loop returns `OpenRuns` of the plan's entries; a missing plan raises, because there is no `try` |
| TestRailUtils.OpenRunsInMembership | testrail_utils.py:68-70 | an ID is collected from one entry iff the entry lists a run with that ID that is not completed |
| TestRailUtils.OpenRunsMembership | testrail_utils.py:59-71 | an ID is returned iff some entry of the plan lists it as a run that is not completed |
| TestRailUtils.OpenRunsOfSamplePlan | test/test_testrail_utils.py:30-59 | the unit test's plan, with runs 59 (open), 60 (completed) and 61 (open), gives `[59, 61]` |
| TestRailUtils.ExtractTestcaseId | test/test_testrail_utils.py:116-126 | the first whitespace-separated token, its digits read as a decimal number; `None` exactly when that token holds no digit |
| TestRailUtils.ExtractTestcaseIdRoundTrip | test/test_testrail_utils.py:116-121 | `C<n>`, `c<n>` or `<n>`, alone or followed by a space and more text, normalises back to `n` |
| TestRailUtils.MemberIdExtracts | robotframework2testrail.py:128-144 | an ID that passes the membership filter normalises to the case ID it matched |
| TestRailUtils.ExtractTestcaseIdExamples | test/test_testrail_utils.py:118-121 | `C1234`, `c1234`, `C1234 C9874` and `1234` each give 1234 |
| TestRailUtils.ExtractTestcaseIdOfWord | test/test_testrail_utils.py:123-126 | a first token without a digit gives no ID, whatever follows it |
| TestRailUtils.ExtractTestcaseIdRejects | test/test_testrail_utils.py:123-126 | `""`, `test` and `test C1234` give no ID |
| TestRailUtils.Send | testrail_utils.py:31 | defines the abstract server call `send_post`: the post is sent unchanged, and it is rejected iff the server rejects that (run, case) pair |
| TestRailUtils.ElapsedRoundTrip | test/test_testrail_utils.py:78-83 | the `"<n>s"` elapsed string reads back as `n` seconds |
| TestRailUtils.AddResult | test/test_testrail_utils.py:71-83 | raises KeyError for an unmapped status (checked first) and ValueError for an ID that does not normalise; otherwise posts the normalised case ID, status, comment, version and elapsed (present iff the duration is non-zero) to the run, rejected iff the server rejects the pair |
| TestRailUtils.AddResultFailedExample | test/test_testrail_utils.py:71-76 | record `C9876`/FAIL/`ERROR!` posts case 9876 with status 5 and the comment only |
| TestRailUtils.AddResultPassedExample | test/test_testrail_utils.py:78-83 | record `C1111`/PASS/version 1.0.2/60 s posts case 1111 with status 1, version `1.0.2` and elapsed `60s` |
| TestRailUtils.CaseIdOfBulkId | testrail_utils.py:30 | `int(id.replace('C', ''))` succeeds iff what remains is a non-empty string of digits |
| TestRailUtils.AddResults | testrail_utils.py:21-31 | the loop sends what `AddResultsRun` describes and stops with the first exception |
| TestRailUtils.AddResultsRunStops | testrail_utils.py:28-31 | once a call has raised, the later testcases are not looked at |
| TestRailUtils.AddResultsItemPost | testrail_utils.py:29-31 | a call that does not raise posts the mapped status as the only body field, to the converted case ID |
| TestRailUtils.AddResultsPostsInOrder | testrail_utils.py:28-31 | the k-th post belongs to the k-th testcase; the loop stops early only on an exception |
| TestRailUtils.AddResultsCompletes | testrail_utils.py:28-31 | with mapped statuses, numeric IDs and no rejection, every testcase is posted exactly once |
| ResultVisitor.MatchesFromSomewhere | robotframework2testrail.py:75 | the left-to-right scan finds the pattern iff it matches at some position |
| ResultVisitor.TagIdsAppend | robotframework2testrail.py:70-77 | the tag IDs of a concatenation are those of each part, in order |
| ResultVisitor.TagIdsMembership | robotframework2testrail.py:70-77 | an ID is found iff some tag matches the pattern and has that ID after the key |
| ResultVisitor.HasCaseIdTagLength | robotframework2testrail.py:75-76 | a matching tag is longer than the key, so its ID is never empty |
| ResultVisitor.TagIdRoundTrip | robotframework2testrail.py:75-76 | tag `test_case_id=C<n>` (or without the C) yields `C<n>`, which normalises back to `n` |
| ResultVisitor.FirstValue | robotframework2testrail.py:53-56 | the metadata search finds a value iff some entry has the key; that value belongs to an entry with the key, and no earlier entry has the key |
| ResultVisitor.TestEntriesMembership | robotframework2testrail.py:58-67 | a test contributes its tag IDs under its own name; without tag IDs it contributes the metadata ID under the suite's name, and nothing else |
| ResultVisitor.SuiteCaseIdsMembership | robotframework2testrail.py:45-68 | an entry of a suite iff a direct test contributes it, in the sense just above |
| ResultVisitor.MetadataIgnoredWhenTagged | robotframework2testrail.py:58-67 | when every test has tag IDs, the metadata ID changes nothing |
| ResultVisitor.EntriesCount | robotframework2testrail.py:58-67 | a suite yields, per test, as many entries as it has tag IDs, or else one exactly when there is a metadata ID |
| ResultVisitor.UnindentIndent | robotframework2testrail.py:85 | the line indentation of a comment can be undone |
| ResultVisitor.IndentLength | robotframework2testrail.py:85 | indenting adds four characters per line feed |
| ResultVisitor.CommentRoundTrip | robotframework2testrail.py:81-86 | a non-empty message gives a comment that starts with the banner, and the message's first 1000 characters can be read back out of it |
| ResultVisitor.CommentMarkerCondition | robotframework2testrail.py:85-86 | the truncation marker is added iff banner + kept characters + 4 per line feed exceeds 1000 |
| ResultVisitor.CommentOfSingleLine | robotframework2testrail.py:85-86 | a single-line message gets the marker iff it is longer than 968 characters; a message of 1000 or more becomes banner + first 1000 characters + marker |
| ResultVisitor.RoundHalfEvenIsNearest | robotframework2testrail.py:91 | `round` gives the nearest whole second, the even one on a tie, and it is the only such value |
| ResultVisitor.Duration | robotframework2testrail.py:87-92 | the duration is 0 iff a timestamp is missing |
| ResultVisitor.DurationIsClampedNearest | robotframework2testrail.py:90-92 | with both timestamps the duration is at least 1; above 1 it is the nearest second, and 1 covers anything under 1.5 s |
| ResultVisitor.DurationExamples | robotframework2testrail.py:87-92 | 1 s gives 1, 0.4 s gives 1, 1.5 s and 2.5 s give 2, and no timestamp gives 0 |
| ResultVisitor.SuiteRecordsComeFromTests | robotframework2testrail.py:40-43 | every record of a suite is made from a tag ID or the metadata ID of one of its direct tests |
| ResultVisitor.TestRailResultVisitor.constructor | robotframework2testrail.py:36-38 | a new visitor has an empty record list |
| ResultVisitor.TestRailResultVisitor.GetTestCaseIdsFromTags | robotframework2testrail.py:70-77 | returns `TagIds(tags)`: the text after the key of each matching tag, in tag order (see TagIdsMembership) |
| ResultVisitor.TestRailResultVisitor.FirstMetadataValue | robotframework2testrail.py:52-56 | returns the value of the first `TEST_CASE_ID` entry, if any |
| ResultVisitor.TestRailResultVisitor.AppendTestEntries | robotframework2testrail.py:58-67 | appends exactly the entries one test contributes |
| ResultVisitor.TestRailResultVisitor.GetTestCaseIdFromSuite | robotframework2testrail.py:45-68 | returns `SuiteCaseIds(suite)`; see SuiteCaseIdsMembership and EntriesCount |
| ResultVisitor.TestRailResultVisitor.AppendTestrailResult | robotframework2testrail.py:79-99 | appends one record whose ID, status and name are the given ones, with `Comment(message)` and `Duration(start, end)` |
| ResultVisitor.TestRailResultVisitor.EndSuite | robotframework2testrail.py:40-43 | appends the suite's records, one per entry, in entry order, and keeps what was there |
| ResultVisitor.TestRailResultVisitor.VisitSuite | robotframework2testrail.py:102-107 | the walk appends the records of the child suites in order, then the suite's own |
| ResultVisitor.GetTestcases | robotframework2testrail.py:102-107 | a fresh visitor's list after the walk is `Collected(root)` |
| Publisher.InRunIndicesMembership | robotframework2testrail.py:129-132 | a record is kept by the membership filter iff its ID without `C`s is the string form of a case of the run |
| Publisher.InRunIndicesIncreasing | robotframework2testrail.py:130-132 | the filter keeps the caller's order |
| Publisher.DropBlockedMembership | robotframework2testrail.py:141-144 | a record survives the blocked filter iff its normalised ID is not a blocked case ID |
| Publisher.DropBlockedIncreasing | robotframework2testrail.py:141-144 | the blocked filter keeps the order |
| Publisher.SelectionIsEligible | robotframework2testrail.py:128-144 | run mode selects exactly the records that pass both filters (the second only when blocked cases are held back), each once, in list order |
| Publisher.SelectionDependsOnIds | robotframework2testrail.py:128-144 | the filters look at nothing but the records' IDs |
| Publisher.ApplyVersion | robotframework2testrail.py:147-148 | stamping sets the version when one is given and changes no other field |
| Publisher.ApplyVersionIdempotent | robotframework2testrail.py:147-148 | stamping twice is stamping once |
| Publisher.ApplyVersionAt | robotframework2testrail.py:146-148 | the list after stamping: the touched records are stamped and the others are unchanged |
| Publisher.ApplyVersionAtTwice | robotframework2testrail.py:169-170 | stamping two sets of records, one after the other, is stamping their union |
| Publisher.StampOne | robotframework2testrail.py:147-148 | stamping one more record of a partly stamped list extends the touched set by that record |
| Publisher.RunLoopStep | robotframework2testrail.py:146-160 | one more record: the loop state advances by that record's call |
| Publisher.RunLoopStops | robotframework2testrail.py:149-155 | once a call has raised, the later records are not looked at |
| Publisher.PublishLoopStep | robotframework2testrail.py:146-160 | the same step, for the run loop over the server's answers |
| Publisher.PublishLoopStops | robotframework2testrail.py:149-155 | the same, for the run loop over the server's answers |
| Publisher.PublishLoopStampInsensitive | robotframework2testrail.py:147-150 | the loop sees records only through their stamped form |
| Publisher.RunModeStampInsensitive | robotframework2testrail.py:169-170 | a run of a plan reached after earlier runs stamped some records behaves as on the unstamped list |
| Publisher.PostSelected | robotframework2testrail.py:146-161 | count, posts and exception are those of `PublishLoop`; the array is the old one with exactly the reached records stamped |
| Publisher.PublishToRun | robotframework2testrail.py:122-164 | run mode: false when the run is unavailable, with nothing posted or stamped; otherwise the loop over `Selection`, as `RunMode` states |
| Publisher.PlanLoopStep | robotframework2testrail.py:169-170 | one more run of the plan appends that run's posts and stamps |
| Publisher.PlanLoopAdvance | robotframework2testrail.py:169-170 | publishing into the next run from the list as earlier runs left it gives that run's `PlanRunCall` (run mode for a non-zero ID, nothing for 0) on the original list, and the stamps combine |
| Publisher.PlanLoopStops | robotframework2testrail.py:169-170 | an exception in one run ends the plan loop |
| Publisher.PlanRunCall | robotframework2testrail.py:122-178 | the per-run call of plan mode is `publish_results` with the plan ID at 0, and a run ID of 0 posts, stamps and raises nothing |
| Publisher.PostToRuns | robotframework2testrail.py:169-170 | the plan loop's posts, exception and stamped array are those of `PlanLoop`; a run ID of 0 is skipped |
| Publisher.PublishToPlan | robotframework2testrail.py:166-173 | plan mode: false when the plan is unavailable; otherwise run mode over each open run with a non-zero ID, as `PlanMode` states |
| Publisher.PublishResults | robotframework2testrail.py:110-180 | outcome, posts and new array are those of `PublishSpec`: the run ID first, then the plan ID, then false |
| Publisher.RunLoopPosts | robotframework2testrail.py:146-155 | the k-th post is what the k-th selected record's call sent, and that call did not raise |
| Publisher.RunLoopEnd | robotframework2testrail.py:149-155 | without an exception every selected record is posted; with one, the call at the position of the post count raised it |
| Publisher.RunLoopTouched | robotframework2testrail.py:146-148 | without an exception every selected record has been stamped; with one, exactly the selected records up to and including the one whose post raised |
| Publisher.RunLoopCount | robotframework2testrail.py:149-158 | `count` plus the rejected posts is the number of posts |
| Publisher.PublishLoopPosts | robotframework2testrail.py:146-155 | RunLoopPosts for the server's answers |
| Publisher.PublishLoopEnd | robotframework2testrail.py:149-155 | RunLoopEnd for the server's answers |
| Publisher.PublishLoopCount | robotframework2testrail.py:149-158 | RunLoopCount for the server's answers |
| Publisher.EligibleExtracts | robotframework2testrail.py:128-144 | a selected record normalises to a case of the run, and not to a blocked one when those are held back |
| Publisher.RunModePostsSelectionInOrder | robotframework2testrail.py:122-161 | the k-th post carries the k-th selected record's case ID, status, comment and the given version (or its own); with no exception, every selected record is posted and stamped; with one, the stamped records are the selected ones up to and including the one that raised |
| Publisher.RunModeCount | robotframework2testrail.py:149-158 | a rejected result is skipped, not fatal: the count is the posts minus the rejected ones |
| Publisher.RunModeRaisesOnUnmappedStatus | robotframework2testrail.py:146-160 | run mode raises iff the run is available and a selected record has an unmapped status, and then it raises KeyError, for a server that answers consistently |
| Publisher.RunModePostsOnlyRunCases | robotframework2testrail.py:128-150 | every post goes to the run and names one of its cases, never a blocked one when those are held back |
| Publisher.InRunIndicesOfMembers | robotframework2testrail.py:128-132 | when every record is in the run, the membership filter keeps all of them |
| Publisher.DropBlockedOfUnblocked | robotframework2testrail.py:141-144 | when none is blocked, the blocked filter keeps all of them |
| Publisher.RunModePostsEveryRecord | robotframework2testrail.py:122-161 | a run holding every record, none held back and all mapped, gets exactly one post per record |
| Publisher.PlanLoopPostsOnlyRunCases | robotframework2testrail.py:166-170 | plan-mode posts go only to the plan's listed runs with a non-zero ID and name their cases |
| Publisher.PlanLoopRaisesOnlyKeyError | robotframework2testrail.py:166-170 | the only exception of plan mode is the status lookup error, for a server that answers consistently |
| Publisher.PostingRuns | robotframework2testrail.py:166-178 | the non-zero listed run IDs, in order: the ones whose recursive call enters run mode |
| Publisher.PlanLoopSkipsRunZero | robotframework2testrail.py:166-178 | a listed run ID of 0 leaves the plan loop's result unchanged |
| Publisher.PlanLoopOfZeros | robotframework2testrail.py:166-178 | a plan loop over run IDs that are all 0 posts and stamps nothing |
| Publisher.PlanLoopPostsEveryRecord | robotframework2testrail.py:166-170 | when every run takes every record, plan mode sends one post per record per run with a non-zero ID |
| Publisher.PublishReturnsFalse | robotframework2testrail.py:122-180 | false iff no ID is given or the named run (plan) is unavailable, and then nothing is posted or stamped; every other run without an exception returns true |
| Publisher.PublishRunIdFirst | robotframework2testrail.py:122-166 | with a run ID, the plan ID is not looked at |
| Publisher.PublishRaisesOnlyKeyError | robotframework2testrail.py:110-180 | the only exception that escapes `publish_results` is KeyError, for a server that answers consistently |
| Publisher.PublishPostsOnlyRunCases | robotframework2testrail.py:110-180 | every post goes to a non-zero run ID, the given run or an open run of the given plan, and names a case of that run |
| Publisher.PublishEmptyVersionKeepsRecords | robotframework2testrail.py:147-148 | with an empty version the caller's records are left as they were |
| Publisher.PublishPlanPostsEveryRecord | robotframework2testrail.py:166-180 | plan mode, when every open run takes every record: returns true with one post per record per open run with a non-zero ID |
| Publisher.PublishPlanOfRunZeroPostsNothing | robotframework2testrail.py:122-180 | a plan whose open runs all have ID 0: returns true, posts nothing and stamps nothing |

## Left out

- `RunModeRaisesOnUnmappedStatus`, `PlanLoopRaisesOnlyKeyError`, `PublishRaisesOnlyKeyError`: the server does not change during a call, and a GET of a run or plan that passed the availability check never fails. The API error that `get_tests` (robotframework2testrail.py:126) or `get_available_testruns` (robotframework2testrail.py:169) could raise at that point is not modelled.
- Parsing the XML output (`ExecutionResult`): the result is given as a `Suite` tree. Robot Framework's visitor dispatch is the explicit walk `VisitSuite`.
- HTTP, authentication and the TestRail client: the server is the value `Server`, and a POST is a `Post` added to a log.
- Timestamps: strings parsed with `strptime` become integer milliseconds, and the float seconds become `RoundHalfEven` of those milliseconds.
- Printing, logging, `time.sleep`, colour output, argument and configuration parsing, `main`: I/O only.
- The text of an API error: it only decides whether the skipped case is printed, so every rejected post counts the same.
- `ExtractTestcaseId`: splits on ASCII whitespace only, and reads only ASCII digits. `str.split` and `int` also accept other Unicode spaces and digits.
- `CaseIdOfBulkId`: accepts only plain digit strings. Python's `int` also allows surrounding spaces, a sign and underscores.
- Tags are taken in the order given. Robot Framework's tag set normalises and sorts them.
- Aliasing: the same dictionary placed twice in the caller's list is not modelled. Each array element is its own record.
- testrail_utils.py does not define `add_result`, `extract_testcase_id` or `get_tests`, although `publish_results` and the unit tests call them. `AddResult`, `ExtractTestcaseId` and `GetTests` follow those unit tests and call sites. In `AddResult`, the `ValueError` for an ID that does not normalise, and the `KeyError` for an unmapped status being raised before it, are the model's choice: `publish_results` never reaches the `ValueError`, because a record that passes its membership filter always normalises (`MemberIdExtracts`).
- The result of `get_testcases` on the sample `output.xml` of test/test_robotframework2testrail.py is not stated, because the report itself is not modelled.
