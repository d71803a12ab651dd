# robotframework2testlink in Dafny

A model of a Robot Framework listener that reports test results to a TestLink
server over XML-RPC, and of the thin TestLink client it uses.

- `PyValues` (pyvalues.dfy): the scalar values that travel in XML-RPC records
  (`Value`), records as `map<string, Value>`, replies as lists of records, and
  the Python built-ins the listener applies to them: `str()` (through
  `'EON-{}'.format(...)`) and `int()`.
- `TestlinkApi` (testlinkapi.dfy): the `TestlinkAPIClient` class as `Client`.
  It has a constant `devKey` and a call log `calls: seq<Request>`. The server
  is an oracle: each reply is a parameter of the wrapper. The four wrappers
  that take `**data` (`CreateTestPlan`, `CreateBuild`, `CreateTestCase`,
  `AddTestCaseToTestPlan`) build their payload step by step, as the source
  updates the dict, and append one `Request` to the log. `GetTestPlanByName`
  and `GetProjectIdByName` send one dict literal each, as the source does.
  `GetTestCaseByName` sends one or two literals: the second lookup only when
  the first reply's record has an `id`. `GetTestSuiteId` sends nothing. The payload rules are also written as
  functions of the caller's fields (`CreateTestPlanPayload`, `CreateBuildPayload`,
  `CreateTestCasePayload`, `WithDevKey`). A lemma beside each one states its
  defaulting and overwriting rules, and each wrapper is proved to send exactly
  that payload. `Client.Valid()` says every logged request carries `devKey`. Every
  wrapper preserves it.
- `Rf2Testlink` (rf2testlink.dfy): the listener class `testlink` as
  `Listener`. It has the source's registers (`testplanid`, `testprojectid`,
  `testplanname`, `testcaseid`, `testcaseexternalid`, `testcaseversion`,
  `tpid`), the fixed `testsuiteid = 1`, and the four callbacks. Each callback
  takes the replies to the calls it may make. Its contract says, branch by
  branch, which registers change, which requests are appended to the client's
  log and what it returns. `NightlyRun` chains `NightlySuite`, `NightlyTest`
  and `NightlyReport` into a whole scenario, with its full call log. The
  suite creates plan 41 and its build `v1.2`. The test creates case 7
  (`EON-7`, version 1), and its link call raises. The passing test is then
  reported as `(7, 41, 'p')`.

Where the source reads a key that a reply might lack, a missing key or an
empty list would raise in Python. The model makes the key's presence a
precondition (`SuiteRepliesReadable`, `TestRepliesReadable`,
`NamesReadable`). It states these only where the source actually reads the key.

`start_test` takes the create branch when `get_test_case_by_name` returns
`False`, and also when it returns an empty list (Python's `not tc`). The model
returns `None` for `False` (`CaseLookupResult`), `IsFalsy` is `not tc`, and
`CaseFound` is proved to be its negation.

## Model

| member | source | states |
|---|---|---|
| `PyValues.ShowNat` | rf2testlink.py:113-117 | the decimal form of a number is non-empty, all digits, and has no leading zero except for 0 itself |
| `PyValues.ParseShowNat` | rf2testlink.py:118 | reading back the decimal digits of `n` gives `n` |
| `PyValues.IntRoundTrip` | rf2testlink.py:118 | `int(str(n)) == n` for every integer, including negative ones |
| `PyValues.PyInt` | rf2testlink.py:118 | `int()` passes ints through, maps `True`/`False` to 1/0, and gives a string starting with `-` a value of at most 0 and any other string a value of at least 0 |
| `PyValues.ShowParseNat` | rf2testlink.py:118 | writing out the value of a digit string without leading zeros gives that string back |
| `PyValues.ShowIntRoundTrip` | rf2testlink.py:118 | `str(int(s)) == s` for every string that `str()` writes for an int, so `int()` inverts `str()` on both sides |
| `TestlinkApi.WithDevKeySpec` | testlinkapi.py:133 | the payload carries `devKey`; its keys are the caller's plus `devKey`; every other caller field is passed through unchanged |
| `TestlinkApi.CreateTestPlanPayloadSpec` | testlinkapi.py:47-49 | `devKey` is injected; `notes` is the fixed auto-generated text only when the caller gave none; a caller's `notes` and every other caller field pass through; no other key is added |
| `TestlinkApi.CreateBuildPayloadSpec` | testlinkapi.py:53-54 | `devKey` is injected; `buildnotes` is always the fixed text, overriding the caller; every other caller field passes through |
| `TestlinkApi.CreateTestCasePayloadSpec` | testlinkapi.py:69-74 | `devKey` is injected; `steps` defaults to `''` only when absent; `actiononduplicatedname='block'`, `checkduplicatedname='true'` and `authorlogin='jean'` are always set; every other caller field passes through |
| `TestlinkApi.FirstMatch` | testlinkapi.py:89-91 | the index found holds a project with the sought name and an `id`, and no earlier project has that name; or it is past the end and no project matches |
| `TestlinkApi.ProjectIdByName` | testlinkapi.py:89-92 | the result is the `id` of the first project whose name matches, and `False` when none matches |
| `TestlinkApi.Client.constructor` | testlinkapi.py:9-11 | the client keeps the given key and has sent nothing |
| `TestlinkApi.Client.GetTestPlanByName` | testlinkapi.py:13-19 | one `tl.getTestPlanByName` request with `devKey`, the project name and the plan name; the server's reply is returned; the key invariant is kept |
| `TestlinkApi.Client.CreateTestPlan` | testlinkapi.py:21-50 | the in-place updates send exactly `CreateTestPlanPayload` to `tl.createTestPlan` in one request, and return the reply |
| `TestlinkApi.Client.CreateBuild` | testlinkapi.py:52-55 | the in-place updates send exactly `CreateBuildPayload` to `tl.createBuild` in one request, and return the reply |
| `TestlinkApi.Client.CreateTestCase` | testlinkapi.py:57-76 | the in-place updates send exactly `CreateTestCasePayload` to `tl.createTestCase` in one request, and return the reply |
| `TestlinkApi.Client.GetProjectIdByName` | testlinkapi.py:78-92 | one `tl.getProjects` request carrying only `devKey`; the loop with early return yields `ProjectIdByName` of the listing |
| `TestlinkApi.Client.GetTestSuiteId` | testlinkapi.py:94-120 | always `None`, and no request is sent (the method modifies nothing) |
| `TestlinkApi.Client.AddTestCaseToTestPlan` | testlinkapi.py:122-134 | one `tl.addTestCaseToTestPlan` request with the caller's fields plus `devKey`; the reply, or the raise, is handed back unchanged |
| `TestlinkApi.Client.GetTestCaseByName` | testlinkapi.py:136-157 | when the name lookup's first record has no `id`: `False` and only the name lookup is sent; otherwise a `tl.getTestCase` lookup with `testcaseid` equal to that `id`, whose reply is returned; the result is `CaseLookupResult` and the requests are `CaseLookupRequests` |
| `TestlinkApi.Client.ReportTestCaseResult` | rf2testlink.py:164 | the result-report wrapper the listener calls (see Findings): one request with the caller's fields plus `devKey`; the reply is returned |
| `Rf2Testlink.ExternalId` | rf2testlink.py:113-117 | every display id the listener builds starts with `EON-` |
| `Rf2Testlink.StatusCode` | rf2testlink.py:158-161 | the code is `p` or `f`, and it is `p` exactly when the status is `'PASS'` |
| `Rf2Testlink.CaseFound` | rf2testlink.py:91-94 | the lookup replies under which the case is reused are exactly those for which `not tc` is false: the name lookup found an `id` and the `tl.getTestCase` reply is not empty |
| `Rf2Testlink.Listener.constructor` | rf2testlink.py:10-35 | the client uses the default key; the only request is the project listing; `projectid` is the first matching project's id, or `False`; every plan and case register and `tpid` is `None`; `testsuiteid` is 1 |
| `Rf2Testlink.Listener.StartSuite` | rf2testlink.py:37-75 | plan found (no `code`): the plan id and project id come from the lookup record, `testplanname` is set to the suite name, exactly one build request is sent for that plan, and it returns True. Creation refused (`code` in both replies): it returns False, sends no build request and changes no register. Plan created: the ids come from the creation record, `testplanname` is left as it was, one build request is sent, and it returns True. Case registers never change |
| `Rf2Testlink.Listener.StartTest` | rf2testlink.py:77-141 | case found: id, `EON-` display id and `int(version)` all come from the found record. Case missing: one creation request with the project id, suite id 1, the test name and `attrs['doc']`. Creation refused (no `status`): it returns False, sends no link request and leaves the case registers unchanged. Case created: all three values come from the creation record. After the case is resolved, exactly one link request is sent with the plan's project id, the plan id, the display id and the version, and it returns True whatever the link call did. Plan registers never change |
| `Rf2Testlink.Listener.EndTestAsWritten` | rf2testlink.py:152-164 | as written, `end_test` raises `AttributeError` for every status, because the client defines no `report_test_case_result`; no request is sent and no register changes |
| `Rf2Testlink.Listener.EndTest` | rf2testlink.py:143-166 | exactly one report request carrying the current `testcaseid` and `testplanid` and the `p`/`f` code of `attrs['status']`; no register changes |
| `Rf2Testlink.Listener.EndSuite` | rf2testlink.py:168-169 | nothing changes |
| `Rf2Testlink.Listener.AddBuild` | rf2testlink.py:171-182 | one build request with the given fields; returns True whatever the reply |
| `Rf2Testlink.NightlySuite` | rf2testlink.py:37-66 | on a server without the plan, the suite creates plan 41, keeps project id 3, and sends the project listing, the plan lookup, the plan creation and the `v1.2` build, in that order |
| `Rf2Testlink.NightlyTest` | rf2testlink.py:91-141 | on a server without the case, the test creates case 7 as `EON-7`, version 1, and sends the name lookup, the creation and the link request, although the link call raises |
| `Rf2Testlink.NightlyReport` | rf2testlink.py:152-164 | the passing test is reported as case 7, plan 41, status `p` |
| `Rf2Testlink.NightlyRun` | rf2testlink.py:37-164 | the whole run sends exactly eight requests, in order: listing, plan lookup, plan creation, build, case lookup, case creation, link, report |

## Left out

- The XML-RPC transport (`xmlrpclib.Server` and the endpoint URL) and the real server's behaviour: every reply is a parameter, and each request is recorded in the client's call log.
- The procedure names in the log are those of the XML-RPC calls in the source. The result-report procedure `tl.reportTCResult` is TestLink's name for it, because the source has no report wrapper (see Findings).
- Transport failures of any call other than the link call: the model always supplies a reply. Only the link call can come back `Raised`, because it is the only call the source guards with `try`/`except`.
- The `TVERBOSE` diagnostics written to stderr and the `os.environ` lookups. They affect neither state nor return values. With `TVERBOSE` set, the source also reads `rtp[0]['message']` on a refused plan creation. The model does not require that key.
- `ROBOT_LISTENER_API_VERSION = 2`: it is part of the runner's protocol, not of the listener's behaviour.
- The constructor signature: in the source a parameter without a default follows one with a default, which Python rejects. The model's constructor takes both arguments.
- Rf2Testlink.Listener.StartTest: it requires the found record's `version` to be an int, a bool, or a string made of an optional sign followed by digits. Python 2's `int()` also accepts surrounding whitespace, and decimal digits of other scripts in unicode strings. The model admits only ASCII digits (`IsDigit`), without whitespace.
- Missing keys and empty replies where the source indexes without checking: these are preconditions. The model does not give them a behaviour, because in Python they raise `KeyError` or `IndexError` out of the callback.
- Duplicate-plan races between parallel runs: the source is single-threaded and does not handle them.

## Findings

| source | as written | input that shows it | evidently intended | confidence | as-written member | corrected member |
|---|---|---|---|---|---|---|
| rf2testlink.py:164 | `end_test` calls `self.tlink.report_test_case_result(**data)`, but `TestlinkAPIClient` (testlinkapi.py:8-157) defines no such method, so every call raises `AttributeError` and no result reaches the server | `end_test('LoginWorks', {'status': 'PASS'})` on any listener | a client wrapper that adds `devKey` to the fields and sends the result to the server, like the other wrappers | not executed; read from the two files | `Rf2Testlink.Listener.EndTestAsWritten` | `Rf2Testlink.Listener.EndTest` |
