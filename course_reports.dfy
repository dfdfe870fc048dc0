/**
 * The course surveillance report page: a course name, and optionally a
 * semester, ask the backend for the surveillance logs of that course; the
 * page shows the logs with the number of alerts and of distinct students.
 * The reply is an input of the fetch.
 */
module CourseReports {
  import opened Wrappers
  import opened JsStrings
  import opened JsValues
  import opened Http
  import opened ReportCounts

  const FETCH_FAILED: string := "Error fetching logs"

  /** `new URLSearchParams({ course_name, ...(semester ? { semester } : {}) })`, in that order. */
  function CourseQuery(courseName: string, semester: string): (q: seq<(string, string)>)
    ensures |q| >= 1 && q[0] == ("course_name", courseName)
    ensures |q| == 2 <==> semester != ""
    ensures |q| <= 2
    ensures |q| == 2 ==> q[1] == ("semester", semester)
  {
    [("course_name", courseName)] + (if semester != "" then [("semester", semester)] else [])
  }

  /** The query names the course whatever it is, and carries each key at most once. */
  lemma CourseQueryKeys(courseName: string, semester: string)
    ensures forall i, j :: 0 <= i < j < |CourseQuery(courseName, semester)| ==>
              CourseQuery(courseName, semester)[i].0 != CourseQuery(courseName, semester)[j].0
    ensures (exists i :: 0 <= i < |CourseQuery(courseName, semester)| && CourseQuery(courseName, semester)[i] == ("semester", semester))
            <==> semester != ""
  {
    if semester != "" {
      assert CourseQuery(courseName, semester)[1] == ("semester", semester);
    }
  }

  /** The request the fetch sends. */
  function LogsRequest(courseName: string, semester: string): (r: Request)
    ensures r.verb == "GET" && r.path == "/surveillance/courselogs" && r.query == CourseQuery(courseName, semester)
  {
    Request("GET", "/surveillance/courselogs", CourseQuery(courseName, semester), Undefined)
  }

  /** A course name of nothing but white space is treated as empty and sends nothing. */
  lemma BlankCourseSendsNothing(courseName: string)
    ensures Trim(courseName) == "" <==> AllSpace(courseName)
  {
    TrimEmptyIffAllSpace(courseName);
  }

  class CourseReportPage {
    var courseName: string
    var semester: string

    var result: Value
    var logs: Value
    var status: PageStatus
    var error: string

    /** The requests sent to the backend, oldest first. */
    var requests: seq<Request>

    /** The logs are a list or some other truthy value, never a falsy one, and no fetch is left loading. */
    predicate Valid()
      reads this
    {
      (Truthy(logs) || logs == Arr([])) && status != Loading
    }

    /** The "Alerts Sent" figure. */
    function Alerts(): (r: Result<nat>)
      reads this
      ensures Nullish(Get(result, "logs")) ==> r == Success(0)
      ensures r.Success? && Get(result, "logs").Arr? ==> r.value <= |Get(result, "logs").items|
    {
      AlertCount(result)
    }

    /** The "Unique Students" figure. */
    function Students(): (r: Result<nat>)
      reads this
      ensures Nullish(Get(result, "logs")) ==> r == Success(0)
      ensures r.Success? && Get(result, "logs").Arr? ==> r.value <= |Get(result, "logs").items|
    {
      var r := UniqueStudents(result);
      if r.Success? && Get(result, "logs").Arr? then
        UniqueStudentsBounded(result);
        r
      else r
    }

    constructor ()
      ensures Valid()
      ensures courseName == "" && semester == ""
      ensures result == Null && logs == Arr([]) && status == Idle && error == "" && requests == []
    {
      courseName, semester := "", "";
      result, logs, status, error := Null, Arr([]), Idle, "";
      requests := [];
    }

    /** The two inputs' `onChange` handlers. */
    method EditForm(courseName: string, semester: string)
      modifies this`courseName, this`semester
      ensures this.courseName == courseName && this.semester == semester
    {
      this.courseName, this.semester := courseName, semester;
    }

    /**
     * `handleFetch`, with `reply` what the logs request gets back.  A blank
     * course name does nothing.  Otherwise it asks for the course's logs
     * (with the name as typed) and ends in success, with the reply and its
     * `logs` (or an empty list), or in error with the reason: the reply's
     * failure, or a TypeError when an ok reply's body is null, after that
     * body was kept as the result.
     */
    method HandleFetch(reply: Reply)
      requires Valid()
      modifies this`result, this`logs, this`status, this`error, this`requests
      ensures Valid()
      ensures Trim(courseName) == "" ==>
                && result == old(result) && logs == old(logs) && status == old(status)
                && error == old(error) && requests == old(requests)
      ensures Trim(courseName) != "" ==> requests == old(requests) + [LogsRequest(courseName, semester)]
      ensures var r := FetchJson(reply, FETCH_FAILED);
              Trim(courseName) != "" && r.Failure? ==>
                && status == Error && error == r.message && result == old(result) && logs == old(logs)
      ensures var r := FetchJson(reply, FETCH_FAILED);
              Trim(courseName) != "" && r.Success? && Nullish(r.value) ==>
                && status == Error && error == TYPE_ERROR && result == r.value && logs == old(logs)
      ensures var r := FetchJson(reply, FETCH_FAILED);
              Trim(courseName) != "" && r.Success? && !Nullish(r.value) ==>
                && status == Succeeded && error == "" && result == r.value
                && logs == (if Truthy(Get(r.value, "logs")) then Get(r.value, "logs") else Arr([]))
    {
      if Trim(courseName) == "" {
        return;
      }
      status := Loading;
      error := "";
      requests := requests + [LogsRequest(courseName, semester)];
      Settle(FetchJson(reply, FETCH_FAILED));
    }

    /**
     * The rest of `handleFetch` once the reply is read: a failure is shown
     * as the error; a body is kept as the result, and its `logs` (or an
     * empty list) shown, unless it is null, whose `logs` is a TypeError.
     */
    method Settle(r: Result<Value>)
      requires Valid() || status == Loading
      requires Truthy(logs) || logs == Arr([])
      modifies this`result, this`logs, this`status, this`error
      ensures Valid()
      ensures r.Failure? ==> status == Error && error == r.message && result == old(result) && logs == old(logs)
      ensures r.Success? && Nullish(r.value) ==>
                status == Error && error == TYPE_ERROR && result == r.value && logs == old(logs)
      ensures r.Success? && !Nullish(r.value) ==>
                && status == Succeeded && error == old(error) && result == r.value
                && logs == (if Truthy(Get(r.value, "logs")) then Get(r.value, "logs") else Arr([]))
    {
      if r.Failure? {
        error := r.message;
        status := Error;
        return;
      }
      result := r.value;
      if Nullish(r.value) {
        error := TYPE_ERROR;
        status := Error;
        return;
      }
      logs := Or(Get(r.value, "logs"), Arr([]));
      status := Succeeded;
    }
  }
}
