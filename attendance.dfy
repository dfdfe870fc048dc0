/**
 * The attendance report page: a class, semester and course name ask the
 * backend for the attendance report of that course, and the page shows the
 * returned records with the number present and absent.  The reply is an
 * input of the fetch.
 */
module AttendanceReport {
  import opened Wrappers
  import opened JsStrings
  import opened JsValues
  import opened Http
  import opened ReportCounts

  const FETCH_FAILED: string := "Error fetching report"

  /**
   * `Number(semester)`, as the report request carries it.  An integer is
   * sent as that number and NaN as NaN; Infinity, which the model's numbers
   * leave out, is sent as NaN, which JSON writes the same way (null).
   */
  function SemesterNumber(semester: string): Value
  {
    match StringToNumber(semester)
    case Integer(n) => Num(n)
    case _ => NaN
  }

  /**
   * A semester `Number` reads as an integer is sent as that integer, whatever
   * form it has (digits, "2.0", "1e3"), and one it cannot read as NaN.
   */
  lemma SemesterNumberOfDigits(semester: string)
    ensures |semester| > 0 && (forall i :: 0 <= i < |semester| ==> IsDecimalDigit(semester[i])) ==>
              SemesterNumber(semester) == Num(ValueIn(semester, 10))
    ensures StringToNumber(semester).Integer? ==> SemesterNumber(semester) == Num(StringToNumber(semester).value)
    ensures StringToNumber(semester).NotANumber? ==> SemesterNumber(semester) == NaN
  {
    if |semester| > 0 && (forall i :: 0 <= i < |semester| ==> IsDecimalDigit(semester[i])) {
      ParseIntAgreesWithNumberOnDigits(semester);
    }
  }

  /** Integer-valued decimal forms, such as "2.0" and "1e3", are sent as the integer. */
  lemma IntegerValuedSemesters(ds: string, zs: string, k: nat)
    requires |ds| > 0 && forall i :: 0 <= i < |ds| ==> IsDecimalDigit(ds[i])
    requires AllZeros(zs)
    ensures SemesterNumber(ds + ("." + zs)) == Num(ValueIn(ds, 10))
    ensures SemesterNumber(ds + "e" + NatToDecimal(k)) == Num(Shift(ValueIn(ds, 10), k))
  {
    NumberOfZeroFraction(ds, zs);
    NumberOfExponent(ds, k);
  }

  /** The body of the report request: the class, the converted semester and the course. */
  function ReportPayload(className: string, semester: Value, courseName: string): (p: Value)
  {
    Obj([ Prop("class_name", Str(className)),
          Prop("semester", semester),
          Prop("course_name", Str(courseName)) ])
  }

  /** The request names the class, the semester and the course, field by field. */
  lemma PayloadCarriesForm(className: string, semester: Value, courseName: string)
    ensures var p := ReportPayload(className, semester, courseName);
            && Get(p, "class_name") == Str(className) && Get(p, "semester") == semester
            && Get(p, "course_name") == Str(courseName)
  {
    var ps := ReportPayload(className, semester, courseName).props;
    LookupUnshadowed(ps, 0, "class_name");
    LookupUnshadowed(ps, 1, "semester");
    LookupUnshadowed(ps, 2, "course_name");
  }

  /**
   * A semester `Number` reads as NaN or as an infinity is sent as a value
   * that the JSON body carries as null.
   */
  lemma UnreadableSemesterSentAsNull(className: string, semester: string, courseName: string)
    requires StringToNumber(semester).NotANumber? || StringToNumber(semester).Infinite?
    ensures Get(Jsonify(ReportPayload(className, SemesterNumber(semester), courseName)), "semester") == Null
  {
    assert SemesterNumber(semester) == NaN;
    var ps := ReportPayload(className, NaN, courseName).props;
    assert forall j :: 0 <= j < |ps| ==> !ps[j].val.Undefined?;
    GetJsonified(ps, 1, "semester");
  }

  /** Present and absent records together never outnumber the records shown. */
  lemma CountsBounded(data: Value)
    requires data.Arr? && NoNullItems(data.items)
    ensures StatusCount(data, "Present").value + StatusCount(data, "Absent").value <= |data.items|
  {
    PresentAndAbsentBounded(data.items);
  }

  class AttendanceReportPage {
    var className: string
    var semester: string
    var courseName: string

    var result: Value
    var data: Value
    var status: PageStatus
    var error: string

    /** The requests sent to the backend, oldest first. */
    var requests: seq<Request>

    /** The records are a list or some other truthy value, never a falsy one, and no fetch is left loading. */
    predicate Valid()
      reads this
    {
      (Truthy(data) || data == Arr([])) && status != Loading
    }

    /** `presentCount`. */
    function PresentCount(): (r: Result<nat>)
      reads this
      ensures r.Success? ==> data.Arr? && r.value <= |data.items|
    {
      StatusCount(data, "Present")
    }

    /** `absentCount`. */
    function AbsentCount(): (r: Result<nat>)
      reads this
      ensures r.Success? ==> data.Arr? && r.value <= |data.items|
    {
      StatusCount(data, "Absent")
    }

    constructor ()
      ensures Valid()
      ensures className == "" && semester == "" && courseName == ""
      ensures result == Null && data == Arr([]) && status == Idle && error == "" && requests == []
    {
      className, semester, courseName := "", "", "";
      result, data, status, error := Null, Arr([]), Idle, "";
      requests := [];
    }

    /** The three inputs' `onChange` handlers. */
    method EditForm(className: string, semester: string, courseName: string)
      modifies this`className, this`semester, this`courseName
      ensures this.className == className && this.semester == semester && this.courseName == courseName
    {
      this.className, this.semester, this.courseName := className, semester, courseName;
    }

    /**
     * `handleFetch`, with `reply` what the report request gets back.  With
     * an empty field it does nothing.  Otherwise it posts the report request
     * and ends in success, with the report and its `records` (or an empty
     * list), or in error with the reason: the reply's failure, or a TypeError
     * when an ok reply's body is null, after that body was kept as the result.
     */
    method HandleFetch(reply: Reply)
      requires Valid()
      modifies this`result, this`data, this`status, this`error, this`requests
      ensures Valid()
      ensures className == "" || semester == "" || courseName == "" ==>
                && result == old(result) && data == old(data) && status == old(status)
                && error == old(error) && requests == old(requests)
      ensures className != "" && semester != "" && courseName != "" ==>
                requests == old(requests) + [Request("POST", "/attendance/report", [], ReportPayload(className, SemesterNumber(semester), courseName))]
      ensures var r := FetchJson(reply, FETCH_FAILED);
              className != "" && semester != "" && courseName != "" && r.Failure? ==>
                && status == Error && error == r.message && result == old(result) && data == old(data)
      ensures var r := FetchJson(reply, FETCH_FAILED);
              className != "" && semester != "" && courseName != "" && r.Success? && Nullish(r.value) ==>
                && status == Error && error == TYPE_ERROR && result == r.value && data == old(data)
      ensures var r := FetchJson(reply, FETCH_FAILED);
              className != "" && semester != "" && courseName != "" && r.Success? && !Nullish(r.value) ==>
                && status == Succeeded && error == "" && result == r.value
                && data == (if Truthy(Get(r.value, "records")) then Get(r.value, "records") else Arr([]))
    {
      if className == "" || semester == "" || courseName == "" {
        return;
      }
      status := Loading;
      error := "";
      requests := requests + [Request("POST", "/attendance/report", [], ReportPayload(className, SemesterNumber(semester), courseName))];
      Settle(FetchJson(reply, FETCH_FAILED));
    }

    /**
     * The rest of `handleFetch` once the reply is read: a failure is shown
     * as the error; a body is kept as the result, and its `records` (or an
     * empty list) shown, unless it is null, whose `records` is a TypeError.
     */
    method Settle(r: Result<Value>)
      requires Valid() || status == Loading
      requires Truthy(data) || data == Arr([])
      modifies this`result, this`data, this`status, this`error
      ensures Valid()
      ensures r.Failure? ==> status == Error && error == r.message && result == old(result) && data == old(data)
      ensures r.Success? && Nullish(r.value) ==>
                status == Error && error == TYPE_ERROR && result == r.value && data == old(data)
      ensures r.Success? && !Nullish(r.value) ==>
                && status == Succeeded && error == old(error) && result == r.value
                && data == (if Truthy(Get(r.value, "records")) then Get(r.value, "records") else Arr([]))
    {
      if r.Failure? {
        error := r.message;
        status := Error;
        return;
      }
      result := r.value;
      if Nullish(r.value) {
        error := TYPE_ERROR;
        status := Error;
        return;
      }
      data := Or(Get(r.value, "records"), Arr([]));
      status := Succeeded;
    }
  }
}
