/** The result-record builder of robotframework2testrail.py: the visitor that
    walks an already-parsed Robot Framework result and turns each test that
    carries a TestRail case ID into a result record.

    The parsed result is a `Suite` tree. Robot Framework's visitor calls
    `end_suite` after it has visited a suite's child suites, so the records
    come out in post-order; `TestRailResultVisitor.VisitSuite` is that walk. */
module ResultVisitor {
  import opened Common
  import opened TestRailUtils

  // ---------------------------------------------------------------------------
  // The parsed result
  // ---------------------------------------------------------------------------

  /** A test of the result: its name, its tags (in the order the result gives
      them), its status, its message and its start and end times in
      milliseconds, when known. */
  datatype RobotTest = RobotTest(
    name: string,
    tags: seq<string>,
    status: string,
    message: string,
    startTime: Option<int>,
    endTime: Option<int>)

  /** A suite: name, metadata entries in order, direct tests and child suites. */
  datatype Suite = Suite(
    name: string,
    metadata: seq<(string, string)>,
    tests: seq<RobotTest>,
    suites: seq<Suite>)

  /** The `(name, test, test_case_id)` triples found in a suite. */
  datatype CaseIdEntry = CaseIdEntry(name: string, test: RobotTest, caseId: string)

  // ---------------------------------------------------------------------------
  // Case IDs from tags
  // ---------------------------------------------------------------------------

  const CaseIdKey := "test_case_id="
  const MetadataKey := "TEST_CASE_ID"

  /** The pattern `test_case_id=[C]?[0-9]+` matches at position `p` of `tag`. */
  predicate MatchesAt(tag: string, p: nat) {
    && p + |CaseIdKey| < |tag|
    && tag[p..p + |CaseIdKey|] == CaseIdKey
    && (|| IsDigit(tag[p + |CaseIdKey|])
        || (tag[p + |CaseIdKey|] == 'C' && p + |CaseIdKey| + 1 < |tag| && IsDigit(tag[p + |CaseIdKey| + 1])))
  }

  /** The pattern matches at position `p` of `tag` or later. */
  predicate MatchesFrom(tag: string, p: nat)
    decreases |tag| - p
  {
    p < |tag| && (MatchesAt(tag, p) || MatchesFrom(tag, p + 1))
  }

  /** `re.findall("(test_case_id=[C]?[0-9]+)", tag)` is not empty. */
  predicate HasCaseIdTag(tag: string) {
    MatchesFrom(tag, 0)
  }

  /** The scan finds a match exactly when there is one. */
  lemma {:induction false} MatchesFromSomewhere(tag: string, p: nat)
    ensures MatchesFrom(tag, p) <==> exists q :: p <= q < |tag| && MatchesAt(tag, q)
    decreases |tag| - p
  {
    if p < |tag| {
      MatchesFromSomewhere(tag, p + 1);
    }
  }

  /** `tag[len('test_case_id='):]` */
  function DropKey(tag: string): string {
    if |tag| >= |CaseIdKey| then tag[|CaseIdKey|..] else ""
  }

  /** The case IDs found in `tags`, in tag order. */
  function TagIds(tags: seq<string>): seq<string> {
    if tags == [] then []
    else TagIds(tags[..|tags| - 1]) + (if HasCaseIdTag(tags[|tags| - 1]) then [DropKey(tags[|tags| - 1])] else [])
  }

  /** The tag IDs of a concatenation are those of each part, in order. */
  lemma {:induction false} TagIdsAppend(a: seq<string>, b: seq<string>)
    ensures TagIds(a + b) == TagIds(a) + TagIds(b)
  {
    if b == [] {
      assert a + b == a;
    } else {
      var n := |b| - 1;
      assert (a + b)[..|a + b| - 1] == a + b[..n];
      TagIdsAppend(a, b[..n]);
    }
  }

  /** Tag `tag` matches the pattern and yields the ID `x`. */
  predicate TagGives(tag: string, x: string) {
    HasCaseIdTag(tag) && x == DropKey(tag)
  }

  /** Every tag ID comes from a tag where the pattern matches, and every such
      tag contributes its text after the key. */
  lemma {:induction false} TagIdsMembership(tags: seq<string>, x: string)
    ensures x in TagIds(tags) <==> exists j :: 0 <= j < |tags| && TagGives(tags[j], x)
  {
    if tags != [] {
      var n := |tags| - 1;
      var prefix := tags[..n];
      TagIdsMembership(prefix, x);
      var last: seq<string> := if HasCaseIdTag(tags[n]) then [DropKey(tags[n])] else [];
      assert TagIds(tags) == TagIds(prefix) + last;
      assert x in last <==> TagGives(tags[n], x);
      forall j | 0 <= j < n ensures prefix[j] == tags[j] { }
    }
  }

  /** A tag that matches has more than the key, so its ID is never empty. */
  lemma HasCaseIdTagLength(tag: string)
    requires HasCaseIdTag(tag)
    ensures |tag| > |CaseIdKey| && |DropKey(tag)| == |tag| - |CaseIdKey| > 0
  {
    MatchesFromSomewhere(tag, 0);
  }

  /** The tag `test_case_id=C<n>` (or without the `C`) yields the ID `C<n>`,
      which the TestRail helpers normalise back to `n`. */
  lemma TagIdRoundTrip(marker: string, n: nat)
    requires marker == "" || marker == "C"
    ensures TagIds([CaseIdKey + marker + NatToString(n)]) == [marker + NatToString(n)]
    ensures ExtractTestcaseId(marker + NatToString(n)) == Some(n)
  {
    var d := NatToString(n);
    var tag := CaseIdKey + marker + d;
    assert tag[0..|CaseIdKey|] == CaseIdKey;
    if marker == "" {
      assert tag[|CaseIdKey|] == d[0];
    } else {
      assert tag[|CaseIdKey|] == 'C' && tag[|CaseIdKey| + 1] == d[0];
    }
    assert MatchesAt(tag, 0);
    var empty: seq<string> := [];
    assert [tag][..0] == empty;
    assert DropKey(tag) == marker + d;
    ExtractTestcaseIdRoundTrip(marker, n, "");
    assert marker + d + "" == marker + d;
  }

  // ---------------------------------------------------------------------------
  // Case IDs of a suite
  // ---------------------------------------------------------------------------

  /** No metadata entry before position `k` has the key `key`. */
  predicate FirstWithKey(metadata: seq<(string, string)>, key: string, k: nat) {
    forall j :: 0 <= j < k && j < |metadata| ==> metadata[j].0 != key
  }

  /** The value of the first metadata entry whose key is `key`. */
  function FirstValue(metadata: seq<(string, string)>, key: string): (r: Option<string>)
    ensures r.Some? <==> exists k :: 0 <= k < |metadata| && metadata[k].0 == key
    ensures r.Some? ==> exists k :: 0 <= k < |metadata| && metadata[k] == (key, r.value) && FirstWithKey(metadata, key, k)
  {
    if metadata == [] then None
    else if metadata[0].0 == key then Some(metadata[0].1)
    else FirstValue(metadata[1..], key)
  }

  /** The suite's `TEST_CASE_ID`, when present and not empty (the source tests
      it for truthiness). */
  function MetadataCaseId(metadata: seq<(string, string)>): Option<string> {
    match FirstValue(metadata, MetadataKey)
    case Some(v) => if v != "" then Some(v) else None
    case None => None
  }

  /** The entries one test contributes: one per tag ID, under the test's name;
      without tag IDs, one under the suite's name if the suite has a metadata ID. */
  function TestEntries(suiteName: string, metaId: Option<string>, t: RobotTest): seq<CaseIdEntry> {
    var ids := TagIds(t.tags);
    if ids != [] then seq(|ids|, k requires 0 <= k < |ids| => CaseIdEntry(t.name, t, ids[k]))
    else if metaId.Some? then [CaseIdEntry(suiteName, t, metaId.value)]
    else []
  }

  function EntriesOf(suiteName: string, metaId: Option<string>, tests: seq<RobotTest>): seq<CaseIdEntry> {
    if tests == [] then []
    else EntriesOf(suiteName, metaId, tests[..|tests| - 1]) + TestEntries(suiteName, metaId, tests[|tests| - 1])
  }

  lemma EntriesOfStep(suiteName: string, metaId: Option<string>, tests: seq<RobotTest>, i: nat)
    requires i < |tests|
    ensures EntriesOf(suiteName, metaId, tests[..i + 1]) == EntriesOf(suiteName, metaId, tests[..i]) + TestEntries(suiteName, metaId, tests[i])
  {
    assert tests[..i + 1][..i] == tests[..i];
  }

  /** What `_get_test_case_id_from_suite` returns: the suite's direct tests only. */
  function SuiteCaseIds(suite: Suite): seq<CaseIdEntry> {
    EntriesOf(suite.name, MetadataCaseId(suite.metadata), suite.tests)
  }

  /** `e` is an entry test `t` contributes: a tag ID of `t` under the test's
      name, or, for a test without tag IDs, the suite's metadata ID under the
      suite's name. */
  predicate EntryOfTest(suiteName: string, metaId: Option<string>, t: RobotTest, e: CaseIdEntry) {
    && e.test == t
    && (|| (TagIds(t.tags) != [] && e.name == t.name && e.caseId in TagIds(t.tags))
        || (TagIds(t.tags) == [] && metaId == Some(e.caseId) && e.name == suiteName))
  }

  lemma TestEntriesMembership(suiteName: string, metaId: Option<string>, t: RobotTest, e: CaseIdEntry)
    ensures e in TestEntries(suiteName, metaId, t) <==> EntryOfTest(suiteName, metaId, t, e)
  {
    var ids := TagIds(t.tags);
    if ids != [] && e.test == t && e.name == t.name && e.caseId in ids {
      var k :| 0 <= k < |ids| && ids[k] == e.caseId;
      assert TestEntries(suiteName, metaId, t)[k] == e;
    }
  }

  /** An entry of a suite belongs to one of its direct tests, as EntryOfTest
      says, and every entry a test contributes is an entry of the suite. */
  lemma {:induction false} SuiteCaseIdsMembership(suiteName: string, metaId: Option<string>, tests: seq<RobotTest>, e: CaseIdEntry)
    ensures e in EntriesOf(suiteName, metaId, tests) <==>
      exists j :: 0 <= j < |tests| && EntryOfTest(suiteName, metaId, tests[j], e)
  {
    if tests != [] {
      var n := |tests| - 1;
      SuiteCaseIdsMembership(suiteName, metaId, tests[..n], e);
      TestEntriesMembership(suiteName, metaId, tests[n], e);
      forall j | 0 <= j < n ensures tests[..n][j] == tests[j] { }
    }
  }

  /** Metadata is not looked at for a suite whose tests all carry tag IDs. */
  lemma {:induction false} MetadataIgnoredWhenTagged(suiteName: string, m1: Option<string>, m2: Option<string>, tests: seq<RobotTest>)
    requires forall j :: 0 <= j < |tests| ==> TagIds(tests[j].tags) != []
    ensures EntriesOf(suiteName, m1, tests) == EntriesOf(suiteName, m2, tests)
  {
    if tests != [] {
      MetadataIgnoredWhenTagged(suiteName, m1, m2, tests[..|tests| - 1]);
    }
  }

  /** A test yields as many entries as it has tag IDs, or else one exactly when
      the suite has a metadata ID. */
  lemma {:induction false} EntriesCount(suiteName: string, metaId: Option<string>, tests: seq<RobotTest>)
    ensures |EntriesOf(suiteName, metaId, tests)| == EntryCount(metaId, tests)
  {
    if tests != [] {
      EntriesCount(suiteName, metaId, tests[..|tests| - 1]);
    }
  }

  function EntryCount(metaId: Option<string>, tests: seq<RobotTest>): nat {
    if tests == [] then 0
    else
      var ids := TagIds(tests[|tests| - 1].tags);
      EntryCount(metaId, tests[..|tests| - 1]) + (if ids != [] then |ids| else if metaId.Some? then 1 else 0)
  }

  // ---------------------------------------------------------------------------
  // Comment and duration of a record
  // ---------------------------------------------------------------------------

  const CommentSizeLimit := 1000
  const Banner := "# Robot Framework result: #\n    "
  const TruncationMarker := "\n...\nLog truncated"

  function Min(a: int, b: int): int {
    if a <= b then a else b
  }

  /** `s.replace('\n', '\n    ')` */
  function Indent(s: string): string {
    ReplaceChar(s, '\n', "\n    ")
  }

  /** `s.replace('\n    ', '\n')`: undoes Indent. */
  function Unindent(s: string): string {
    if s == [] then []
    else if |s| >= 5 && s[..5] == "\n    " then "\n" + Unindent(s[5..])
    else [s[0]] + Unindent(s[1..])
  }

  /** The number of line feeds in `s`. */
  function LineFeeds(s: string): nat {
    if s == [] then 0 else (if s[0] == '\n' then 1 else 0) + LineFeeds(s[1..])
  }

  /** The comment of a record: none for an empty message; otherwise a banner,
      then at most the first 1000 characters of the message with every line
      indented, then a truncation marker when the text so far is longer than
      1000 characters. */
  function Comment(message: string): Option<string> {
    if message == "" then None
    else
      var text := Banner + Indent(message[..Min(|message|, CommentSizeLimit)]);
      Some(if |text| > CommentSizeLimit then text + TruncationMarker else text)
  }

  /** Reads the message part back out of a comment. */
  function CommentMessage(c: string): string {
    var text := if |c| > CommentSizeLimit + |TruncationMarker| then c[..|c| - |TruncationMarker|] else c;
    if |text| >= |Banner| then Unindent(text[|Banner|..]) else ""
  }

  lemma {:induction false} UnindentIndent(s: string)
    ensures Unindent(Indent(s)) == s
  {
    if s != [] {
      UnindentIndent(s[1..]);
      var rest := Indent(s[1..]);
      assert Indent(s) == (if s[0] == '\n' then "\n    " else [s[0]]) + rest;
      if s[0] == '\n' {
        assert ("\n    " + rest)[..5] == "\n    ";
        assert ("\n    " + rest)[5..] == rest;
      } else {
        assert ([s[0]] + rest)[1..] == rest;
      }
    }
  }

  lemma {:induction false} IndentLength(s: string)
    ensures |Indent(s)| == |s| + 4 * LineFeeds(s)
  {
    if s != [] {
      IndentLength(s[1..]);
    }
  }

  /** The comment of a non-empty message starts with the banner, and the
      message's first 1000 characters can be read back out of it. */
  lemma CommentRoundTrip(message: string)
    requires message != ""
    ensures Comment(message).Some?
    ensures Comment(message).value[..|Banner|] == Banner
    ensures CommentMessage(Comment(message).value) == message[..Min(|message|, CommentSizeLimit)]
  {
    var prefix := message[..Min(|message|, CommentSizeLimit)];
    var text := Banner + Indent(prefix);
    var c := Comment(message).value;
    if |text| > CommentSizeLimit {
      assert c == text + TruncationMarker;
      assert c[..|c| - |TruncationMarker|] == text;
    }
    assert text[|Banner|..] == Indent(prefix);
    UnindentIndent(prefix);
  }

  /** The truncation marker is appended exactly when the banner, the kept
      characters and the four spaces added per line feed exceed 1000. */
  lemma CommentMarkerCondition(message: string)
    requires message != ""
    ensures var prefix := message[..Min(|message|, CommentSizeLimit)];
      Comment(message) == Some(Banner + Indent(prefix) +
        (if |Banner| + |prefix| + 4 * LineFeeds(prefix) > CommentSizeLimit then TruncationMarker else ""))
  {
    var prefix := message[..Min(|message|, CommentSizeLimit)];
    IndentLength(prefix);
    var text := Banner + Indent(prefix);
    assert |text| == |Banner| + |prefix| + 4 * LineFeeds(prefix);
    assert text + "" == text;
  }

  /** A message without line feeds gets the marker as soon as it is longer
      than 968 characters, so before anything is cut off; a 1500-character one
      becomes banner, first 1000 characters and marker. */
  lemma CommentOfSingleLine(message: string)
    requires message != "" && '\n' !in message
    ensures var c := Comment(message).value;
      && (|c| > CommentSizeLimit <==> |message| > CommentSizeLimit - |Banner|)
      && (|message| >= CommentSizeLimit ==> c == Banner + message[..CommentSizeLimit] + TruncationMarker)
  {
    var prefix := message[..Min(|message|, CommentSizeLimit)];
    assert '\n' !in prefix;
    NoLineFeedIndent(prefix);
    CommentMarkerCondition(message);
  }

  lemma {:induction false} NoLineFeedIndent(s: string)
    requires '\n' !in s
    ensures Indent(s) == s && LineFeeds(s) == 0
  {
    if s != [] {
      assert '\n' !in s[1..];
      NoLineFeedIndent(s[1..]);
      assert s == [s[0]] + s[1..];
    }
  }

  /** Python's `round(ms / 1000)`: the nearest whole second, ties to even. */
  function RoundHalfEven(ms: int): int {
    var q := ms / 1000;
    var r := ms % 1000;
    if r < 500 then q
    else if r > 500 then q + 1
    else if q % 2 == 0 then q else q + 1
  }

  /** `n` seconds is a nearest whole number of seconds to `ms`, the even one on a tie. */
  predicate NearestSecond(ms: int, n: int) {
    && -500 <= ms - 1000 * n <= 500
    && ((ms - 1000 * n == 500 || ms - 1000 * n == -500) ==> n % 2 == 0)
  }

  /** RoundHalfEven gives the nearest second, and it is the only one that is. */
  lemma RoundHalfEvenIsNearest(ms: int, n: int)
    ensures NearestSecond(ms, RoundHalfEven(ms))
    ensures NearestSecond(ms, n) ==> n == RoundHalfEven(ms)
  {
    var q := ms / 1000;
    var r := ms % 1000;
    assert ms == 1000 * q + r;
    if NearestSecond(ms, n) {
      assert n == q || n == q + 1;
    }
  }

  /** The duration of a record: 0 without both timestamps, otherwise the
      rounded elapsed seconds, raised to 1 when below 1. */
  function Duration(startTime: Option<int>, endTime: Option<int>): (d: nat)
    ensures d == 0 <==> startTime.None? || endTime.None?
  {
    if startTime.Some? && endTime.Some? then
      var seconds := RoundHalfEven(endTime.value - startTime.value);
      if seconds < 1 then 1 else seconds
    else 0
  }

  /** With both timestamps the duration is the nearest second when that is
      at least 1, and 1 otherwise. */
  lemma DurationIsClampedNearest(startTime: int, endTime: int)
    ensures var d := Duration(Some(startTime), Some(endTime));
      && d >= 1
      && (d > 1 ==> NearestSecond(endTime - startTime, d))
      && (d == 1 ==> endTime - startTime < 1500)
  {
    RoundHalfEvenIsNearest(endTime - startTime, 0);
  }

  /** 1 s apart gives 1; 0.4 s gives 1; 1.5 s and 2.5 s both give 2; no timestamps give 0. */
  lemma DurationExamples()
    ensures Duration(Some(0), Some(1000)) == 1
    ensures Duration(Some(0), Some(400)) == 1
    ensures Duration(Some(0), Some(1500)) == 2
    ensures Duration(Some(0), Some(2500)) == 2
    ensures Duration(None, Some(2500)) == 0
  {
  }

  // ---------------------------------------------------------------------------
  // Records
  // ---------------------------------------------------------------------------

  /** The dictionary `_append_testrail_result` appends. */
  function MakeRecord(name: string, test: RobotTest, caseId: string): Testcase {
    Testcase(caseId, test.status, name, Comment(test.message), Duration(test.startTime, test.endTime), None)
  }

  /** One record per entry, in order. */
  function Records(entries: seq<CaseIdEntry>): (r: seq<Testcase>)
    ensures |r| == |entries|
  {
    seq(|entries|, k requires 0 <= k < |entries| => MakeRecord(entries[k].name, entries[k].test, entries[k].caseId))
  }

  lemma RecordsStep(entries: seq<CaseIdEntry>, i: nat)
    requires i < |entries|
    ensures Records(entries[..i + 1]) == Records(entries[..i]) + [MakeRecord(entries[i].name, entries[i].test, entries[i].caseId)]
  {
    var a := Records(entries[..i + 1]);
    var b := Records(entries[..i]) + [MakeRecord(entries[i].name, entries[i].test, entries[i].caseId)];
    forall k | 0 <= k < |a| ensures a[k] == b[k] {
      assert entries[..i + 1][k] == entries[k];
      if k < i {
        assert entries[..i][k] == entries[k];
      }
    }
  }

  /** The records `end_suite` appends for one suite. */
  function SuiteRecords(suite: Suite): seq<Testcase> {
    Records(SuiteCaseIds(suite))
  }

  /** Every record of a suite is made from an entry of one of its direct
      tests: a tag ID of that test, or the suite's metadata ID. */
  lemma SuiteRecordsComeFromTests(suite: Suite, k: nat)
    requires k < |SuiteRecords(suite)|
    ensures exists j, e ::
      (&& 0 <= j < |suite.tests|
       && EntryOfTest(suite.name, MetadataCaseId(suite.metadata), suite.tests[j], e)
       && SuiteRecords(suite)[k] == MakeRecord(e.name, e.test, e.caseId))
  {
    var e := SuiteCaseIds(suite)[k];
    SuiteCaseIdsMembership(suite.name, MetadataCaseId(suite.metadata), suite.tests, e);
    var j :| 0 <= j < |suite.tests| && EntryOfTest(suite.name, MetadataCaseId(suite.metadata), suite.tests[j], e);
  }

  /** The concatenation of `parts`, in order. */
  function Flatten(parts: seq<seq<Testcase>>): seq<Testcase> {
    if parts == [] then [] else Flatten(parts[..|parts| - 1]) + parts[|parts| - 1]
  }

  /** The records of a whole tree, child suites first, then the suite itself. */
  function Collected(suite: Suite): seq<Testcase> {
    Flatten(seq(|suite.suites|, k requires 0 <= k < |suite.suites| => Collected(suite.suites[k])))
      + SuiteRecords(suite)
  }

  // ---------------------------------------------------------------------------
  // The visitor
  // ---------------------------------------------------------------------------

  class TestRailResultVisitor {
    var resultTestcaseList: seq<Testcase>

    constructor ()
      ensures resultTestcaseList == []
    {
      resultTestcaseList := [];
    }

    /** `_get_test_case_ids_from_tags` */
    static method GetTestCaseIdsFromTags(tags: seq<string>) returns (ids: seq<string>)
      ensures ids == TagIds(tags)
    {
      ids := [];
      for i := 0 to |tags|
        invariant ids == TagIds(tags[..i])
      {
        assert tags[..i + 1][..i] == tags[..i];
        if HasCaseIdTag(tags[i]) {
          ids := ids + [DropKey(tags[i])];
        }
      }
      assert tags[..|tags|] == tags;
    }

    /** The metadata loop of `_get_test_case_id_from_suite`: the value of the
        first `TEST_CASE_ID` entry, if any. */
    static method FirstMetadataValue(metadata: seq<(string, string)>) returns (testcaseId: Option<string>)
      ensures testcaseId == FirstValue(metadata, MetadataKey)
    {
      testcaseId := None;
      var m := 0;
      while m < |metadata|
        invariant 0 <= m <= |metadata|
        invariant FirstValue(metadata, MetadataKey) == FirstValue(metadata[m..], MetadataKey)
      {
        if metadata[m].0 == MetadataKey {
          testcaseId := Some(metadata[m].1);
          return;
        }
        assert metadata[m..][1..] == metadata[m + 1..];
        m := m + 1;
      }
      assert metadata[|metadata|..] == [];
    }

    /** `_get_test_case_id_from_suite`: the first `TEST_CASE_ID` metadata entry,
        then, per direct test, its tag IDs or else the metadata ID. */
    static method GetTestCaseIdFromSuite(suite: Suite) returns (result: seq<CaseIdEntry>)
      ensures result == SuiteCaseIds(suite)
    {
      var testcaseId := FirstMetadataValue(suite.metadata);
      var metaId := if testcaseId.Some? && testcaseId.value != "" then testcaseId else None;
      assert metaId == MetadataCaseId(suite.metadata);

      result := [];
      var tests := suite.tests;
      for i := 0 to |tests|
        invariant result == EntriesOf(suite.name, metaId, tests[..i])
      {
        EntriesOfStep(suite.name, metaId, tests, i);
        result := AppendTestEntries(result, suite.name, metaId, tests[i]);
      }
      assert tests[..|tests|] == tests;
    }

    /** The body of the `for test in suite.tests` loop of
        `_get_test_case_id_from_suite`: one `(test.name, test, tcid)` per tag ID,
        or else `(suite.name, test, testcase_id)` when the metadata gave an ID. */
    static method AppendTestEntries(result: seq<CaseIdEntry>, suiteName: string, metaId: Option<string>, test: RobotTest)
      returns (r: seq<CaseIdEntry>)
      ensures r == result + TestEntries(suiteName, metaId, test)
    {
      r := result;
      var fromTags := GetTestCaseIdsFromTags(test.tags);
      ghost var entries := TestEntries(suiteName, metaId, test);
      if fromTags != [] {
        assert |entries| == |fromTags|;
        for k := 0 to |fromTags|
          invariant r == result + entries[..k]
        {
          assert entries[..k + 1] == entries[..k] + [entries[k]];
          assert entries[k] == CaseIdEntry(test.name, test, fromTags[k]);
          assert (result + entries[..k]) + [CaseIdEntry(test.name, test, fromTags[k])] == result + (entries[..k] + [CaseIdEntry(test.name, test, fromTags[k])]);
          r := r + [CaseIdEntry(test.name, test, fromTags[k])];
        }
        assert entries[..|fromTags|] == entries;
      } else if metaId.Some? {
        r := r + [CaseIdEntry(suiteName, test, metaId.value)];
      }
    }

    /** `_append_testrail_result` */
    method AppendTestrailResult(name: string, test: RobotTest, caseId: string)
      modifies this
      ensures resultTestcaseList == old(resultTestcaseList) + [MakeRecord(name, test, caseId)]
    {
      var comment: Option<string> := None;
      if test.message != "" {
        var text := Banner + Indent(test.message[..Min(|test.message|, CommentSizeLimit)]);
        comment := Some(if |text| > CommentSizeLimit then text + TruncationMarker else text);
      }
      var duration: nat := 0;
      if test.startTime.Some? && test.endTime.Some? {
        var seconds := RoundHalfEven(test.endTime.value - test.startTime.value);
        duration := if seconds < 1 then 1 else seconds;
      }
      resultTestcaseList := resultTestcaseList + [Testcase(caseId, test.status, name, comment, duration, None)];
    }

    /** `end_suite`: one record per case-ID entry of the suite, in order. */
    method EndSuite(suite: Suite)
      modifies this
      ensures resultTestcaseList == old(resultTestcaseList) + SuiteRecords(suite)
    {
      var entries := GetTestCaseIdFromSuite(suite);
      for i := 0 to |entries|
        invariant resultTestcaseList == old(resultTestcaseList) + Records(entries[..i])
      {
        RecordsStep(entries, i);
        var e := entries[i];
        AppendTestrailResult(e.name, e.test, e.caseId);
        assert (old(resultTestcaseList) + Records(entries[..i])) + [MakeRecord(e.name, e.test, e.caseId)] == old(resultTestcaseList) + (Records(entries[..i]) + [MakeRecord(e.name, e.test, e.caseId)]);
      }
      assert entries[..|entries|] == entries;
    }

    /** Robot Framework's walk of a suite: the child suites in order, then `end_suite`. */
    method VisitSuite(suite: Suite)
      modifies this
      ensures resultTestcaseList == old(resultTestcaseList) + Collected(suite)
      decreases suite
    {
      var children := suite.suites;
      ghost var parts := seq(|suite.suites|, k requires 0 <= k < |suite.suites| => Collected(suite.suites[k]));
      for i := 0 to |children|
        invariant resultTestcaseList == old(resultTestcaseList) + Flatten(parts[..i])
      {
        assert parts[..i + 1][..i] == parts[..i];
        assert Flatten(parts[..i + 1]) == Flatten(parts[..i]) + Collected(children[i]);
        ConcatAssoc(old(resultTestcaseList), Flatten(parts[..i]), Collected(children[i]));
        VisitSuite(children[i]);
      }
      assert parts[..|children|] == parts;
      EndSuite(suite);
      assert Collected(suite) == Flatten(parts) + SuiteRecords(suite);
      ConcatAssoc(old(resultTestcaseList), Flatten(parts), SuiteRecords(suite));
    }
  }

  /** `get_testcases` once the report is parsed: a fresh visitor walks the tree
      and its list is the result. */
  method GetTestcases(root: Suite) returns (testcases: seq<Testcase>)
    ensures testcases == Collected(root)
  {
    var visitor := new TestRailResultVisitor();
    visitor.VisitSuite(root);
    testcases := visitor.resultTestcaseList;
  }
}
