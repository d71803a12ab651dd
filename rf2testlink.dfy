/** The Robot Framework listener (`testlink`): four callbacks that resolve the
    current test plan and test case on the TestLink server, keep their ids in
    registers, and report each test's outcome. Replies come in as parameters;
    the requests the listener causes are the client's call log. */
module Rf2Testlink {
  import opened PyValues
  import opened TestlinkApi

  /** Prefix of the display id the listener gives every test case. */
  const ExternalIdPrefix := "EON-"

  /** `'EON-{}'.format(v)`. */
  function ExternalId(v: Value): (e: string)
    ensures |e| >= |ExternalIdPrefix| && e[..|ExternalIdPrefix|] == ExternalIdPrefix
  {
    ExternalIdPrefix + PyStr(v)
  }

  /** The result code sent to the server: `p` exactly for the status `PASS`, `f` for anything else. */
  function StatusCode(status: Value): (c: string)
    ensures c == "p" || c == "f"
    ensures c == "p" <==> status == VStr("PASS")
  {
    if status == VStr("PASS") then "p" else "f"
  }

  // ---------------------------------------------------------------------------
  // Shapes of the server's replies

  /** An error reply carries a `code`. */
  predicate HasCode(r: Record) { "code" in r }

  predicate PlanRecordReadable(r: Record) { "id" in r && "testproject_id" in r }

  /** What `start_suite` reads of the plan lookup and plan creation replies. */
  predicate SuiteRepliesReadable(tplan: Response, rtp: Response)
  {
    |tplan| > 0 &&
    (!HasCode(tplan[0]) ==> PlanRecordReadable(tplan[0])) &&
    (HasCode(tplan[0]) ==> |rtp| > 0 && (!HasCode(rtp[0]) ==> PlanRecordReadable(rtp[0])))
  }

  /** Python's `not tc` for what `get_test_case_by_name` returns: `False` or an empty list. */
  predicate IsFalsy(tc: Option<Response>)
  {
    tc.None? || |tc.value| == 0
  }

  /** The two lookup replies under which `start_test` reuses an existing case. */
  function CaseFound(byName: Response, byId: Response): (b: bool)
    requires |byName| > 0
    ensures b <==> !IsFalsy(CaseLookupResult(byName, byId))
  {
    "id" in byName[0] && |byId| > 0
  }

  predicate FoundCaseReadable(r: Record)
  {
    "testcase_id" in r && "tc_external_id" in r && "version" in r && IntConvertible(r["version"])
  }

  predicate CreatedCaseReadable(r: Record)
  {
    "id" in r && "external_id" in r && "version_number" in r
  }

  /** What `start_test` reads of the runner's attributes and the case replies. */
  predicate TestRepliesReadable(attrs: Record, byName: Response, byId: Response, ntc: Response)
  {
    |byName| > 0 &&
    (CaseFound(byName, byId) ==> FoundCaseReadable(byId[0])) &&
    (!CaseFound(byName, byId) ==>
       "doc" in attrs && |ntc| > 0 && ("status" in ntc[0] ==> CreatedCaseReadable(ntc[0])))
  }

  // ---------------------------------------------------------------------------
  // The dicts the listener builds for the client

  function NewPlanFields(planName: string, projectName: string): Record
  {
    map["testplanname" := VStr(planName), "testprojectname" := VStr(projectName)]
  }

  function BuildFields(planId: Value, buildName: string): Record
  {
    map["testplanid" := planId, "buildname" := VStr(buildName)]
  }

  function NewCaseFields(projectId: Value, suiteId: Value, name: string, summary: Value): Record
  {
    map["testprojectid" := projectId, "testsuiteid" := suiteId, "testcasename" := VStr(name), "summary" := summary]
  }

  function LinkFields(projectId: Value, planId: Value, externalId: Value, version: Value): Record
  {
    map["testprojectid" := projectId, "testplanid" := planId, "testcaseexternalid" := externalId, "version" := version]
  }

  function ResultFields(caseId: Value, planId: Value, status: string): Record
  {
    map["testcaseid" := caseId, "testplanid" := planId, "status" := VStr(status)]
  }

  // ---------------------------------------------------------------------------
  // Looking up a method on the client

  datatype AttributeLookup = Bound | RaisedAttributeError(attribute: string)

  /** `self.tlink.<attribute>`: a method of the client, or `AttributeError`. */
  function ClientMethod(attribute: string): AttributeLookup
  {
    if attribute in ClientOperations then Bound else RaisedAttributeError(attribute)
  }

  // ---------------------------------------------------------------------------
  // The listener

  class Listener {
    const tlink: Client
    const projectname: string
    const buildVersion: string
    /** The project's id, or `False` when the lookup found no such project. */
    const projectid: Value
    /** Fixed suite id for new test cases, because the suite lookup does not work. */
    const testsuiteid: Value

    var testplanid: Value
    var testplanname: Value
    var testprojectid: Value
    var testcaseid: Value
    var testcaseexternalid: Value
    var testcaseversion: Value
    var tpid: Value

    ghost predicate Valid()
      reads this, tlink
    {
      tlink.Valid()
    }

    /** The source's `__init__`, with the project listing as the oracle for the project lookup. */
    constructor (buildVersion: string, projectName: string, projects: Response)
      requires NamesReadable(projects, projectName)
      ensures Valid() && fresh(tlink)
      ensures tlink.devKey == DefaultDevKey && tlink.calls == [ProjectsRequest(DefaultDevKey)]
      ensures projectname == projectName && this.buildVersion == buildVersion
      ensures projectid == ProjectIdByName(projects, projectName)
      ensures testsuiteid == VInt(1)
      ensures testplanid == VNone && testplanname == VNone && testprojectid == VNone
      ensures testcaseid == VNone && testcaseexternalid == VNone && testcaseversion == VNone
      ensures tpid == VNone
    {
      var client := new Client(DefaultDevKey);
      var pid := client.GetProjectIdByName(projectName, projects);
      tlink := client;
      projectname := projectName;
      this.buildVersion := buildVersion;
      projectid := pid;
      testplanid := VNone;
      testplanname := VNone;
      testcaseid := VNone;
      testcaseexternalid := VNone;
      testcaseversion := VNone;
      testprojectid := VNone;
      testsuiteid := VInt(1);
      tpid := VNone;
    }

    /** Reuses the plan named after the suite, or creates it; on success adds a build.
        `tplan`, `rtp` and `buildReply` are the server's replies to the plan lookup,
        the plan creation and the build creation. */
    method StartSuite(name: string, attrs: Record, tplan: Response, rtp: Response, buildReply: Response)
      returns (ok: bool)
      requires Valid() && SuiteRepliesReadable(tplan, rtp)
      modifies this, tlink
      ensures Valid()
      ensures testcaseid == old(testcaseid) && testcaseexternalid == old(testcaseexternalid)
      ensures testcaseversion == old(testcaseversion) && tpid == old(tpid)
      // plan found: adopt it
      ensures !HasCode(tplan[0]) ==>
                ok &&
                testplanid == tplan[0]["id"] && testprojectid == tplan[0]["testproject_id"] &&
                testplanname == VStr(name) &&
                tlink.calls == old(tlink.calls) + [PlanLookupRequest(tlink.devKey, projectname, name),
                                                   BuildRequest(tlink.devKey, BuildFields(tplan[0]["id"], buildVersion))]
      // plan missing and creation refused: nothing changes, no build
      ensures HasCode(tplan[0]) && HasCode(rtp[0]) ==>
                !ok &&
                testplanid == old(testplanid) && testprojectid == old(testprojectid) &&
                testplanname == old(testplanname) &&
                tlink.calls == old(tlink.calls) + [PlanLookupRequest(tlink.devKey, projectname, name),
                                                   CreatePlanRequest(tlink.devKey, NewPlanFields(name, projectname))]
      // plan created: adopt the new plan, but the plan name register is not updated
      ensures HasCode(tplan[0]) && !HasCode(rtp[0]) ==>
                ok &&
                testplanid == rtp[0]["id"] && testprojectid == rtp[0]["testproject_id"] &&
                testplanname == old(testplanname) &&
                tlink.calls == old(tlink.calls) + [PlanLookupRequest(tlink.devKey, projectname, name),
                                                   CreatePlanRequest(tlink.devKey, NewPlanFields(name, projectname)),
                                                   BuildRequest(tlink.devKey, BuildFields(rtp[0]["id"], buildVersion))]
    {
      var plans := tlink.GetTestPlanByName(projectname, name, tplan);
      if "code" in plans[0] {
        var data := NewPlanFields(name, projectname);
        var created := tlink.CreateTestPlan(data, rtp);
        if "code" in created[0] {
          return false;
        }
        testplanid := created[0]["id"];
        testprojectid := created[0]["testproject_id"];
        var b := BuildFields(testplanid, buildVersion);
        var added := AddBuild(b, buildReply);
        return true;
      }
      testplanid := plans[0]["id"];
      testprojectid := plans[0]["testproject_id"];
      testplanname := VStr(name);
      var b := BuildFields(testplanid, buildVersion);
      var added := AddBuild(b, buildReply);
      return true;
    }

    /** Reuses the case named after the test, or creates it; on success links it to
        the current plan. `byName` and `byId` are the replies to the two case lookups,
        `ntc` the reply to the case creation, `link` the outcome of the link call. */
    method StartTest(name: string, attrs: Record, byName: Response, byId: Response, ntc: Response, link: Reply)
      returns (ok: bool)
      requires Valid() && TestRepliesReadable(attrs, byName, byId, ntc)
      modifies this, tlink
      ensures Valid()
      ensures testplanid == old(testplanid) && testprojectid == old(testprojectid)
      ensures testplanname == old(testplanname) && tpid == old(tpid)
      // case found: all three case registers from the found record
      ensures CaseFound(byName, byId) ==>
                ok &&
                testcaseid == byId[0]["testcase_id"] &&
                testcaseexternalid == VStr(ExternalId(byId[0]["tc_external_id"])) &&
                testcaseversion == VInt(PyInt(byId[0]["version"]))
      // case missing and creation refused: case registers unchanged, no link call
      ensures !CaseFound(byName, byId) && "status" !in ntc[0] ==>
                !ok &&
                testcaseid == old(testcaseid) && testcaseexternalid == old(testcaseexternalid) &&
                testcaseversion == old(testcaseversion)
      // case created: all three case registers from the creation record
      ensures !CaseFound(byName, byId) && "status" in ntc[0] ==>
                ok &&
                testcaseid == ntc[0]["id"] &&
                testcaseexternalid == VStr(ExternalId(ntc[0]["external_id"])) &&
                testcaseversion == ntc[0]["version_number"]
      // the lookups, the creation when the case was missing, and one link call
      // whenever the case was resolved, whatever the link call's outcome
      ensures tlink.calls ==
                old(tlink.calls) + CaseLookupRequests(tlink.devKey, name, byName) +
                (if CaseFound(byName, byId) then []
                 else [CreateCaseRequest(tlink.devKey, NewCaseFields(projectid, testsuiteid, name, attrs["doc"]))]) +
                (if ok then [LinkRequest(tlink.devKey, LinkFields(testprojectid, testplanid, testcaseexternalid, testcaseversion))]
                 else [])
    {
      ghost var before := tlink.calls;
      var tc := tlink.GetTestCaseByName(name, byName, byId);
      ghost var looked := tlink.calls;
      assert looked == before + CaseLookupRequests(tlink.devKey, name, byName);
      if IsFalsy(tc) {
        var data := NewCaseFields(projectid, testsuiteid, name, attrs["doc"]);
        var created := tlink.CreateTestCase(data, ntc);
        assert tlink.calls == looked + [CreateCaseRequest(tlink.devKey, data)];
        if "status" !in created[0] {
          return false;
        }
        testcaseid := created[0]["id"];
        testcaseexternalid := VStr(ExternalId(created[0]["external_id"]));
        testcaseversion := created[0]["version_number"];
      } else {
        testcaseid := tc.value[0]["testcase_id"];
        testcaseexternalid := VStr(ExternalId(tc.value[0]["tc_external_id"]));
        testcaseversion := VInt(PyInt(tc.value[0]["version"]));
      }
      var data := LinkFields(testprojectid, testplanid, testcaseexternalid, testcaseversion);
      // a raised link call is swallowed
      ghost var resolved := tlink.calls;
      var added := tlink.AddTestCaseToTestPlan(data, link);
      assert tlink.calls == resolved + [LinkRequest(tlink.devKey, data)];
      return true;
    }

    /** Reports the test's outcome against the current case and plan. */
    method EndTest(name: string, attrs: Record, response: Response)
      requires Valid() && "status" in attrs
      modifies tlink
      ensures Valid() && unchanged(this)
      ensures tlink.calls ==
                old(tlink.calls) + [ReportRequest(tlink.devKey, ResultFields(testcaseid, testplanid, StatusCode(attrs["status"])))]
    {
      var planid := testplanid;
      var caseid := testcaseid;
      var data := map["testcaseid" := caseid, "testplanid" := planid];
      if attrs["status"] == VStr("PASS") {
        data := data["status" := VStr("p")];
      } else {
        data := data["status" := VStr("f")];
      }
      var tr := tlink.ReportTestCaseResult(data, response);
    }

    /** `end_test` as the source writes it: the result fields are built, then the
        lookup of `report_test_case_result` on the client raises before any request
        is sent, whatever the status. */
    method EndTestAsWritten(name: string, attrs: Record) returns (o: AttributeLookup)
      requires Valid() && "status" in attrs
      ensures o == RaisedAttributeError("report_test_case_result")
      ensures tlink.calls == old(tlink.calls) && unchanged(this)
    {
      var data := map["testcaseid" := testcaseid, "testplanid" := testplanid];
      if attrs["status"] == VStr("PASS") {
        data := data["status" := VStr("p")];
      } else {
        data := data["status" := VStr("f")];
      }
      o := ClientMethod("report_test_case_result");
    }

    method EndSuite(name: string, attrs: Record)
      ensures unchanged(this) && unchanged(tlink)
    {
    }

    /** Adds a build to a plan and reports success whatever the server replied. */
    method AddBuild(bdata: Record, response: Response) returns (ok: bool)
      requires tlink.Valid()
      modifies tlink
      ensures tlink.Valid()
      ensures tlink.calls == old(tlink.calls) + [BuildRequest(tlink.devKey, bdata)]
      ensures ok
    {
      var tb := tlink.CreateBuild(bdata, response);
      return true;
    }
  }

  // A run against a server with no plans and no cases yet: the suite, one test and its report.

  /** The suite `Nightly` finds no plan, so plan 41 is created and build `v1.2` added to it. */
  method NightlySuite() returns (listener: Listener)
    ensures fresh(listener) && fresh(listener.tlink) && listener.Valid()
    ensures listener.testplanid == VStr("41") && listener.testprojectid == VStr("3")
    ensures listener.projectid == VStr("3") && listener.testsuiteid == VInt(1)
    ensures listener.tlink.devKey == DefaultDevKey
    ensures listener.tlink.calls ==
              [ProjectsRequest(DefaultDevKey),
               PlanLookupRequest(DefaultDevKey, "Tonian Eon", "Nightly"),
               CreatePlanRequest(DefaultDevKey, NewPlanFields("Nightly", "Tonian Eon")),
               BuildRequest(DefaultDevKey, BuildFields(VStr("41"), "v1.2"))]
  {
    var projects := [map["name" := VStr("Tonian Eon"), "id" := VStr("3")]];
    listener := new Listener("v1.2", "Tonian Eon", projects);
    var noPlan := [map["code" := VInt(3000), "message" := VStr("no such plan")]];
    var newPlan := [map["id" := VStr("41"), "testproject_id" := VStr("3"), "status" := VBool(true)]];
    var ok := listener.StartSuite("Nightly", map[], noPlan, newPlan, []);
    assert ok;
  }

  /** The test `LoginWorks` finds no case, so case 7 (`EON-7`, version 1) is created and
      linked to the plan; the link call raises and the callback still succeeds. */
  method NightlyTest(listener: Listener)
    requires listener.Valid()
    modifies listener, listener.tlink
    ensures listener.Valid()
    ensures listener.testplanid == old(listener.testplanid) && listener.testprojectid == old(listener.testprojectid)
    ensures listener.testcaseid == VInt(7) && listener.testcaseexternalid == VStr("EON-7")
    ensures listener.testcaseversion == VInt(1)
    ensures listener.tlink.calls == old(listener.tlink.calls) +
              [CaseByNameRequest(listener.tlink.devKey, "LoginWorks"),
               CreateCaseRequest(listener.tlink.devKey,
                 NewCaseFields(listener.projectid, listener.testsuiteid, "LoginWorks", VStr("User can log in"))),
               LinkRequest(listener.tlink.devKey,
                 LinkFields(listener.testprojectid, listener.testplanid, VStr("EON-7"), VInt(1)))]
  {
    var noCase := [map["code" := VInt(5030), "message" := VStr("no such case")]];
    var newCase := [map["status" := VBool(true), "id" := VInt(7), "external_id" := VInt(7), "version_number" := VInt(1)]];
    var attrs := map["doc" := VStr("User can log in")];
    assert "doc" in attrs;
    var ok := listener.StartTest("LoginWorks", attrs, noCase, [], newCase, Raised);
    assert ExternalId(VInt(7)) == "EON-7";
    assert ok;
  }

  /** The passing test is reported against case 7 and plan 41 with `p`. */
  method NightlyReport(listener: Listener)
    requires listener.Valid()
    requires listener.testplanid == VStr("41") && listener.testcaseid == VInt(7)
    modifies listener.tlink
    ensures listener.tlink.calls == old(listener.tlink.calls) +
              [ReportRequest(listener.tlink.devKey, map["testcaseid" := VInt(7), "testplanid" := VStr("41"), "status" := VStr("p")])]
  {
    var attrs := map["status" := VStr("PASS")];
    assert "status" in attrs;
    listener.EndTest("LoginWorks", attrs, []);
  }

  /** The whole run: every request the listener causes, in order. */
  method NightlyRun() returns (listener: Listener)
    ensures listener.tlink.calls ==
              [ProjectsRequest(DefaultDevKey),
               PlanLookupRequest(DefaultDevKey, "Tonian Eon", "Nightly"),
               CreatePlanRequest(DefaultDevKey, NewPlanFields("Nightly", "Tonian Eon")),
               BuildRequest(DefaultDevKey, BuildFields(VStr("41"), "v1.2")),
               CaseByNameRequest(DefaultDevKey, "LoginWorks"),
               CreateCaseRequest(DefaultDevKey, NewCaseFields(VStr("3"), VInt(1), "LoginWorks", VStr("User can log in"))),
               LinkRequest(DefaultDevKey, LinkFields(VStr("3"), VStr("41"), VStr("EON-7"), VInt(1))),
               ReportRequest(DefaultDevKey, ResultFields(VInt(7), VStr("41"), "p"))]
  {
    listener := NightlySuite();
    NightlyTest(listener);
    NightlyReport(listener);
  }
}
