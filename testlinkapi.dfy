/** The TestLink XML-RPC client (`TestlinkAPIClient`). The server is an oracle:
    every reply is passed in as a parameter, and every outgoing request is
    appended to the client's call log. */
module TestlinkApi {
  import opened PyValues

  datatype Option<T> = None | Some(value: T)

  /** One outgoing XML-RPC call: the remote procedure and the dict it is given. */
  datatype Request = Request(procedure: string, payload: Record)

  /** The outcome of a remote call that the caller guards with `try`/`except`. */
  datatype Reply = Returned(response: Response) | Raised

  /** Default argument of the client's constructor, which the listener uses. */
  const DefaultDevKey := "put your key here"
  const DefaultPlanNotes := "This Test Plan was generated automatically"
  const BuildNotes := "This build was automatically generated"
  const AuthorLogin := "jean"

  /** The methods `TestlinkAPIClient` defines besides `__init__`. */
  const ClientOperations: set<string> := {
    "get_test_plan_by_name", "create_test_plan", "create_build", "create_test_case",
    "get_project_id_by_name", "get_test_suite_id", "add_test_case_to_test_plan",
    "get_test_case_by_name"
  }

  /** The payload carries the client's authentication key. */
  predicate Authenticated(p: Record, devKey: string)
  {
    "devKey" in p && p["devKey"] == VStr(devKey)
  }

  predicate AllAuthenticated(calls: seq<Request>, devKey: string)
  {
    forall i :: 0 <= i < |calls| ==> Authenticated(calls[i].payload, devKey)
  }

  // ---------------------------------------------------------------------------
  // Payloads: what each wrapper sends for the caller's keyword arguments

  /** The caller's fields with `devKey` injected, as the link and report wrappers send them. */
  function WithDevKey(devKey: string, data: Record): Record
  {
    data["devKey" := VStr(devKey)]
  }

  lemma WithDevKeySpec(devKey: string, data: Record)
    ensures var p := WithDevKey(devKey, data);
      && Authenticated(p, devKey)
      && p.Keys == data.Keys + {"devKey"}
      && forall k :: k in data && k != "devKey" ==> p[k] == data[k]
  {
  }

  function CreateTestPlanPayload(devKey: string, data: Record): Record
  {
    var d := data["devKey" := VStr(devKey)];
    if "notes" in d then d else d["notes" := VStr(DefaultPlanNotes)]
  }

  /** `create_test_plan` fills `notes` only when the caller gave none. */
  lemma CreateTestPlanPayloadSpec(devKey: string, data: Record)
    ensures var p := CreateTestPlanPayload(devKey, data);
      && Authenticated(p, devKey)
      && p.Keys == data.Keys + {"devKey", "notes"}
      && ("notes" in data ==> p["notes"] == data["notes"])
      && ("notes" !in data ==> p["notes"] == VStr(DefaultPlanNotes))
      && forall k :: k in data && k != "devKey" ==> p[k] == data[k]
  {
  }

  function CreateBuildPayload(devKey: string, data: Record): Record
  {
    data["devKey" := VStr(devKey)]["buildnotes" := VStr(BuildNotes)]
  }

  /** `create_build` always overwrites `buildnotes` with the fixed text. */
  lemma CreateBuildPayloadSpec(devKey: string, data: Record)
    ensures var p := CreateBuildPayload(devKey, data);
      && Authenticated(p, devKey)
      && p.Keys == data.Keys + {"devKey", "buildnotes"}
      && p["buildnotes"] == VStr(BuildNotes)
      && forall k :: k in data && k != "devKey" && k != "buildnotes" ==> p[k] == data[k]
  {
  }

  /** The three fields `create_test_case` always overwrites. */
  predicate IsFixedCaseField(k: string)
  {
    k == "actiononduplicatedname" || k == "checkduplicatedname" || k == "authorlogin"
  }

  function CreateTestCasePayload(devKey: string, data: Record): Record
  {
    var d := data["devKey" := VStr(devKey)];
    var d := if "steps" in d then d else d["steps" := VStr("")];
    d["actiononduplicatedname" := VStr("block")]["checkduplicatedname" := VStr("true")]["authorlogin" := VStr(AuthorLogin)]
  }

  /** `create_test_case` defaults `steps` to the empty string only when it is absent,
      blocks duplicate names and fixes the author. */
  lemma CreateTestCasePayloadSpec(devKey: string, data: Record)
    ensures var p := CreateTestCasePayload(devKey, data);
      && Authenticated(p, devKey)
      && p.Keys == data.Keys + {"devKey", "steps", "actiononduplicatedname", "checkduplicatedname", "authorlogin"}
      && ("steps" in data ==> p["steps"] == data["steps"])
      && ("steps" !in data ==> p["steps"] == VStr(""))
      && p["actiononduplicatedname"] == VStr("block")
      && p["checkduplicatedname"] == VStr("true")
      && p["authorlogin"] == VStr(AuthorLogin)
      && forall k :: k in data && k != "devKey" && !IsFixedCaseField(k) ==> p[k] == data[k]
  {
  }

  // ---------------------------------------------------------------------------
  // Requests

  function PlanLookupRequest(devKey: string, projectName: string, planName: string): Request
  {
    Request("tl.getTestPlanByName",
      map["devKey" := VStr(devKey), "testprojectname" := VStr(projectName), "testplanname" := VStr(planName)])
  }

  function CreatePlanRequest(devKey: string, data: Record): Request
  {
    Request("tl.createTestPlan", CreateTestPlanPayload(devKey, data))
  }

  function BuildRequest(devKey: string, data: Record): Request
  {
    Request("tl.createBuild", CreateBuildPayload(devKey, data))
  }

  function CreateCaseRequest(devKey: string, data: Record): Request
  {
    Request("tl.createTestCase", CreateTestCasePayload(devKey, data))
  }

  function ProjectsRequest(devKey: string): Request
  {
    Request("tl.getProjects", map["devKey" := VStr(devKey)])
  }

  function LinkRequest(devKey: string, data: Record): Request
  {
    Request("tl.addTestCaseToTestPlan", WithDevKey(devKey, data))
  }

  function CaseByNameRequest(devKey: string, name: string): Request
  {
    Request("tl.getTestCaseIDByName", map["devKey" := VStr(devKey), "testcasename" := VStr(name)])
  }

  function CaseByIdRequest(devKey: string, id: Value): Request
  {
    Request("tl.getTestCase", map["devKey" := VStr(devKey), "testcaseid" := id])
  }

  /** The calls `get_test_case_by_name` issues: the second only when the first reply's record has an `id`. */
  function CaseLookupRequests(devKey: string, name: string, byName: Response): seq<Request>
    requires |byName| > 0
  {
    if "id" in byName[0] then [CaseByNameRequest(devKey, name), CaseByIdRequest(devKey, byName[0]["id"])]
    else [CaseByNameRequest(devKey, name)]
  }

  /** What `get_test_case_by_name` returns: `False` (here `None`) when the name lookup's
      record has no `id`, otherwise the `tl.getTestCase` reply. */
  function CaseLookupResult(byName: Response, byId: Response): Option<Response>
    requires |byName| > 0
  {
    if "id" in byName[0] then Some(byId) else None
  }

  /** The report wrapper the listener calls; it forwards the fields with `devKey`. */
  function ReportRequest(devKey: string, data: Record): Request
  {
    Request("tl.reportTCResult", WithDevKey(devKey, data))
  }

  // ---------------------------------------------------------------------------
  // Project lookup

  /** The record's `name` is the project name sought. */
  predicate Matches(p: Record, name: string)
  {
    "name" in p && p["name"] == VStr(name)
  }

  /** The listing can be scanned the way `get_project_id_by_name` scans it without a
      missing key: each record up to the first match has a `name`, and the match has an `id`. */
  predicate NamesReadable(projects: Response, name: string)
    decreases |projects|
  {
    |projects| == 0 ||
    ("name" in projects[0] &&
     if projects[0]["name"] == VStr(name) then "id" in projects[0] else NamesReadable(projects[1..], name))
  }

  /** Index of the first project named `name`, or `|projects|` when there is none. */
  function FirstMatch(projects: Response, name: string): (k: nat)
    requires NamesReadable(projects, name)
    ensures k <= |projects|
    ensures k < |projects| ==> Matches(projects[k], name) && "id" in projects[k]
    ensures forall j :: 0 <= j < k ==> !Matches(projects[j], name)
    decreases |projects|
  {
    if |projects| == 0 then 0
    else if projects[0]["name"] == VStr(name) then 0
    else 1 + FirstMatch(projects[1..], name)
  }

  /** The result of `get_project_id_by_name`: the `id` of the first project whose
      name matches, and `False` when none does. */
  function ProjectIdByName(projects: Response, name: string): (r: Value)
    requires NamesReadable(projects, name)
    ensures (forall j :: 0 <= j < |projects| ==> !Matches(projects[j], name)) ==> r == VBool(false)
    ensures forall k :: 0 <= k < |projects| && Matches(projects[k], name) &&
                        (forall j :: 0 <= j < k ==> !Matches(projects[j], name)) ==>
                          "id" in projects[k] && r == projects[k]["id"]
  {
    var k := FirstMatch(projects, name);
    if k < |projects| then projects[k]["id"] else VBool(false)
  }

  // ---------------------------------------------------------------------------
  // The client

  class Client {
    const devKey: string
    /** Every request sent to the server so far, oldest first. */
    var calls: seq<Request>

    /** Every request the client has sent carries its key. */
    ghost predicate Valid()
      reads this
    {
      AllAuthenticated(calls, devKey)
    }

    constructor (devKey: string)
      ensures this.devKey == devKey && calls == [] && Valid()
    {
      this.devKey := devKey;
      calls := [];
    }

    /** Sends one request and hands back the server's reply. */
    method Send(req: Request, response: Response) returns (r: Response)
      requires Valid() && Authenticated(req.payload, devKey)
      modifies this`calls
      ensures Valid()
      ensures calls == old(calls) + [req] && r == response
    {
      calls := calls + [req];
      r := response;
    }

    method GetTestPlanByName(testprojectname: string, testplanname: string, response: Response) returns (r: Response)
      requires Valid()
      modifies this`calls
      ensures Valid()
      ensures calls == old(calls) + [PlanLookupRequest(devKey, testprojectname, testplanname)]
      ensures r == response
    {
      r := Send(PlanLookupRequest(devKey, testprojectname, testplanname), response);
    }

    method CreateTestPlan(data: Record, response: Response) returns (r: Response)
      requires Valid()
      modifies this`calls
      ensures Valid()
      ensures calls == old(calls) + [CreatePlanRequest(devKey, data)]
      ensures r == response
    {
      var d := data;
      d := d["devKey" := VStr(devKey)];
      if "notes" !in d {
        d := d["notes" := VStr(DefaultPlanNotes)];
      }
      assert d == CreateTestPlanPayload(devKey, data);
      r := Send(Request("tl.createTestPlan", d), response);
    }

    method CreateBuild(data: Record, response: Response) returns (r: Response)
      requires Valid()
      modifies this`calls
      ensures Valid()
      ensures calls == old(calls) + [BuildRequest(devKey, data)]
      ensures r == response
    {
      var d := data;
      d := d["devKey" := VStr(devKey)];
      d := d["buildnotes" := VStr(BuildNotes)];
      assert d == CreateBuildPayload(devKey, data);
      r := Send(Request("tl.createBuild", d), response);
    }

    method CreateTestCase(data: Record, response: Response) returns (r: Response)
      requires Valid()
      modifies this`calls
      ensures Valid()
      ensures calls == old(calls) + [CreateCaseRequest(devKey, data)]
      ensures r == response
    {
      var d := data;
      d := d["devKey" := VStr(devKey)];
      if "steps" !in d {
        d := d["steps" := VStr("")];
      }
      d := d["actiononduplicatedname" := VStr("block")];
      d := d["checkduplicatedname" := VStr("true")];
      d := d["authorlogin" := VStr(AuthorLogin)];
      assert d == CreateTestCasePayload(devKey, data);
      r := Send(Request("tl.createTestCase", d), response);
    }

    /** Scans the project listing in order and stops at the first name that matches. */
    method GetProjectIdByName(projectname: string, projects: Response) returns (r: Value)
      requires Valid() && NamesReadable(projects, projectname)
      modifies this`calls
      ensures Valid()
      ensures calls == old(calls) + [ProjectsRequest(devKey)]
      ensures r == ProjectIdByName(projects, projectname)
    {
      var listing := Send(ProjectsRequest(devKey), projects);
      var i := 0;
      while i < |listing|
        invariant 0 <= i <= |listing|
        invariant i <= FirstMatch(listing, projectname)
        invariant NamesReadable(listing[i..], projectname)
      {
        assert listing[i..][0] == listing[i];
        if listing[i]["name"] == VStr(projectname) {
          return listing[i]["id"];
        }
        assert listing[i..][1..] == listing[i + 1..];
        i := i + 1;
      }
      return VBool(false);
    }

    /** Issues nothing and always yields `None`: the lookup it was meant to do is commented out. */
    method GetTestSuiteId(testplanid: Value, testsuitename: string) returns (r: Value)
      ensures r == VNone
    {
      var data := map["devKey" := VStr(devKey), "testplanid" := testplanid];
      r := VNone;
    }

    method AddTestCaseToTestPlan(data: Record, reply: Reply) returns (r: Reply)
      requires Valid()
      modifies this`calls
      ensures Valid()
      ensures calls == old(calls) + [LinkRequest(devKey, data)]
      ensures r == reply
    {
      var d := data;
      d := d["devKey" := VStr(devKey)];
      assert d == WithDevKey(devKey, data);
      calls := calls + [Request("tl.addTestCaseToTestPlan", d)];
      r := reply;
    }

    /** `None` stands for the `False` the source returns when the name lookup finds no `id`. */
    method GetTestCaseByName(tcname: string, byName: Response, byId: Response) returns (r: Option<Response>)
      requires Valid() && |byName| > 0
      modifies this`calls
      ensures Valid()
      ensures "id" !in byName[0] ==> r == None && calls == old(calls) + [CaseByNameRequest(devKey, tcname)]
      ensures "id" in byName[0] ==>
                r == Some(byId) &&
                calls == old(calls) + [CaseByNameRequest(devKey, tcname), CaseByIdRequest(devKey, byName[0]["id"])]
      ensures r == CaseLookupResult(byName, byId) && calls == old(calls) + CaseLookupRequests(devKey, tcname, byName)
    {
      var tc := Send(CaseByNameRequest(devKey, tcname), byName);
      if "id" !in tc[0] {
        return None;
      }
      var found := Send(CaseByIdRequest(devKey, tc[0]["id"]), byId);
      r := Some(found);
    }

    /** The result-report wrapper the listener calls, written like the others. */
    method ReportTestCaseResult(data: Record, response: Response) returns (r: Response)
      requires Valid()
      modifies this`calls
      ensures Valid()
      ensures calls == old(calls) + [ReportRequest(devKey, data)]
      ensures r == response
    {
      var d := data;
      d := d["devKey" := VStr(devKey)];
      assert d == WithDevKey(devKey, data);
      r := Send(Request("tl.reportTCResult", d), response);
    }
  }
}
