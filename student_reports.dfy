/**
 * The student surveillance report page: a roll number, and optionally a
 * course and a semester, ask the backend for the surveillance logs of that
 * student; the page shows the logs with the student's name, the course and
 * the number of alerts.  The reply is an input of the fetch.
 */
module StudentReports {
  import opened Wrappers
  import opened JsStrings
  import opened JsValues
  import opened Http
  import opened ReportCounts

  const FETCH_FAILED: string := "Error fetching logs"
  /** The placeholder shown for a missing name (an em dash). */
  const NO_NAME: string := "\U{2014}"
  const ALL_COURSES: string := "All"

  /** The roll number, then the course and the semester each only when non-empty, in that order. */
  function StudentQuery(rollNo: string, courseName: string, semester: string): (q: seq<(string, string)>)
    ensures |q| >= 1 && q[0] == ("roll_no", rollNo)
    ensures |q| == 1 + (if courseName != "" then 1 else 0) + (if semester != "" then 1 else 0)
    ensures courseName != "" ==> q[1] == ("course_name", courseName)
    ensures semester != "" ==> q[|q| - 1] == ("semester", semester)
  {
    [("roll_no", rollNo)]
      + (if courseName != "" then [("course_name", courseName)] else [])
      + (if semester != "" then [("semester", semester)] else [])
  }

  /** Each optional filter is sent exactly when it was filled in, and no key twice. */
  lemma StudentQueryKeys(rollNo: string, courseName: string, semester: string)
    ensures var q := StudentQuery(rollNo, courseName, semester);
            forall i, j :: 0 <= i < j < |q| ==> q[i].0 != q[j].0
    ensures var q := StudentQuery(rollNo, courseName, semester);
            (exists i :: 0 <= i < |q| && q[i].0 == "course_name") <==> courseName != ""
    ensures var q := StudentQuery(rollNo, courseName, semester);
            (exists i :: 0 <= i < |q| && q[i].0 == "semester") <==> semester != ""
  {
    var q := StudentQuery(rollNo, courseName, semester);
    if courseName != "" {
      assert q[1].0 == "course_name";
    }
    if semester != "" {
      assert q[|q| - 1].0 == "semester";
    }
  }

  /** The request the fetch sends. */
  function LogsRequest(rollNo: string, courseName: string, semester: string): (r: Request)
    ensures r.verb == "GET" && r.path == "/surveillance/studentlogs"
    ensures r.query == StudentQuery(rollNo, courseName, semester)
  {
    Request("GET", "/surveillance/studentlogs", StudentQuery(rollNo, courseName, semester), Undefined)
  }

  /** A roll number of nothing but white space is treated as empty and sends nothing. */
  lemma BlankRollNumberSendsNothing(rollNo: string)
    ensures Trim(rollNo) == "" <==> AllSpace(rollNo)
  {
    TrimEmptyIffAllSpace(rollNo);
  }

  /** The name shown: the first log's `user_name`, or a dash when there is none. */
  function DisplayName(result: Value): Value
  {
    Or(OptGet(OptGet(Get(result, "logs"), "0"), "user_name"), Str(NO_NAME))
  }

  /**
   * The name comes from the first log when that log has a truthy `user_name`;
   * no logs list, an empty one or a first log without a name all show the dash.
   */
  lemma DisplayNameFromFirstLog(result: Value)
    ensures var logs := Get(result, "logs");
            logs.Arr? && |logs.items| > 0 && Truthy(OptGet(logs.items[0], "user_name")) ==>
              DisplayName(result) == OptGet(logs.items[0], "user_name")
    ensures var logs := Get(result, "logs");
            Nullish(logs) || logs == Arr([]) ==> DisplayName(result) == Str(NO_NAME)
    ensures var logs := Get(result, "logs");
            logs.Arr? && |logs.items| > 0 && !Truthy(OptGet(logs.items[0], "user_name")) ==>
              DisplayName(result) == Str(NO_NAME)
  {
    var logs := Get(result, "logs");
    if logs.Arr? {
      assert NatToDecimal(0) == "0";
      if |logs.items| > 0 {
        GetIndex(logs.items, 0);
      } else {
        assert ArrayIndex("0") == Some(0);
      }
    }
  }

  /** The course shown: the reply's `course_name`, or "All" when it has none. */
  function CourseShown(result: Value): (c: Value)
    ensures Truthy(Get(result, "course_name")) ==> c == Get(result, "course_name")
    ensures !Truthy(Get(result, "course_name")) ==> c == Str(ALL_COURSES)
  {
    Or(Get(result, "course_name"), Str(ALL_COURSES))
  }

  class StudentReportPage {
    var rollNo: string
    var courseName: string
    var semester: string

    var result: Value
    var logs: Value
    var status: PageStatus
    var error: string

    /** The requests sent to the backend, oldest first. */
    var requests: seq<Request>

    /** The logs are a list or some other truthy value, never a falsy one, and no fetch is left loading. */
    predicate Valid()
      reads this
    {
      (Truthy(logs) || logs == Arr([])) && status != Loading
    }

    /** The "Alerts Sent" figure. */
    function Alerts(): (r: Result<nat>)
      reads this
      ensures Nullish(Get(result, "logs")) ==> r == Success(0)
      ensures r.Success? && Get(result, "logs").Arr? ==> r.value <= |Get(result, "logs").items|
    {
      AlertCount(result)
    }

    constructor ()
      ensures Valid()
      ensures rollNo == "" && courseName == "" && semester == ""
      ensures result == Null && logs == Arr([]) && status == Idle && error == "" && requests == []
    {
      rollNo, courseName, semester := "", "", "";
      result, logs, status, error := Null, Arr([]), Idle, "";
      requests := [];
    }

    /** The three inputs' `onChange` handlers. */
    method EditForm(rollNo: string, courseName: string, semester: string)
      modifies this`rollNo, this`courseName, this`semester
      ensures this.rollNo == rollNo && this.courseName == courseName && this.semester == semester
    {
      this.rollNo, this.courseName, this.semester := rollNo, courseName, semester;
    }

    /**
     * `handleFetch`, with `reply` what the logs request gets back.  A blank
     * roll number does nothing.  Otherwise it asks for the student's logs
     * and ends in success, with the reply and its `logs` (or an empty list),
     * or in error with the reason: the reply's failure, or a TypeError when
     * an ok reply's body is null, after that body was kept as the result.
     */
    method HandleFetch(reply: Reply)
      requires Valid()
      modifies this`result, this`logs, this`status, this`error, this`requests
      ensures Valid()
      ensures Trim(rollNo) == "" ==>
                && result == old(result) && logs == old(logs) && status == old(status)
                && error == old(error) && requests == old(requests)
      ensures Trim(rollNo) != "" ==> requests == old(requests) + [LogsRequest(rollNo, courseName, semester)]
      ensures var r := FetchJson(reply, FETCH_FAILED);
              Trim(rollNo) != "" && r.Failure? ==>
                && status == Error && error == r.message && result == old(result) && logs == old(logs)
      ensures var r := FetchJson(reply, FETCH_FAILED);
              Trim(rollNo) != "" && r.Success? && Nullish(r.value) ==>
                && status == Error && error == TYPE_ERROR && result == r.value && logs == old(logs)
      ensures var r := FetchJson(reply, FETCH_FAILED);
              Trim(rollNo) != "" && r.Success? && !Nullish(r.value) ==>
                && status == Succeeded && error == "" && result == r.value
                && logs == (if Truthy(Get(r.value, "logs")) then Get(r.value, "logs") else Arr([]))
    {
      if Trim(rollNo) == "" {
        return;
      }
      status := Loading;
      error := "";
      requests := requests + [LogsRequest(rollNo, courseName, semester)];
      Settle(FetchJson(reply, FETCH_FAILED));
    }

    /**
     * The rest of `handleFetch` once the reply is read: a failure is shown
     * as the error; a body is kept as the result, and its `logs` (or an
     * empty list) shown, unless it is null, whose `logs` is a TypeError.
     */
    method Settle(r: Result<Value>)
      requires Valid() || status == Loading
      requires Truthy(logs) || logs == Arr([])
      modifies this`result, this`logs, this`status, this`error
      ensures Valid()
      ensures r.Failure? ==> status == Error && error == r.message && result == old(result) && logs == old(logs)
      ensures r.Success? && Nullish(r.value) ==>
                status == Error && error == TYPE_ERROR && result == r.value && logs == old(logs)
      ensures r.Success? && !Nullish(r.value) ==>
                && status == Succeeded && error == old(error) && result == r.value
                && logs == (if Truthy(Get(r.value, "logs")) then Get(r.value, "logs") else Arr([]))
    {
      if r.Failure? {
        error := r.message;
        status := Error;
        return;
      }
      result := r.value;
      if Nullish(r.value) {
        error := TYPE_ERROR;
        status := Error;
        return;
      }
      logs := Or(Get(r.value, "logs"), Arr([]));
      status := Succeeded;
    }
  }
}
