/**
 * The summary figures the report pages compute from the lists a report
 * carries: how many records have a given status, how many logs raised an
 * alert, how many distinct students appear.  Each is a `filter(...).length`
 * or a `Set` size over a list of objects, so each fails with a TypeError on
 * a value that is not a list or on a null entry.
 */
module ReportCounts {
  import opened Wrappers
  import opened JsValues

  // ---------------------------------------------------------------------------
  // Records by status
  // ---------------------------------------------------------------------------

  /** Whether a record's `status` is `=== s`. */
  predicate HasStatus(r: Value, s: string)
  {
    StrictEquals(Get(r, "status"), Str(s))
  }

  /** `items.filter((r) => r.status === s).length`. */
  function CountStatus(items: seq<Value>, s: string): (n: nat)
    ensures n <= |items|
  {
    if |items| == 0 then 0
    else CountStatus(items[..|items| - 1], s) + (if HasStatus(items[|items| - 1], s) then 1 else 0)
  }

  /** The count on the page's `data`: a TypeError unless it is a list of non-null records. */
  function StatusCount(data: Value, s: string): (r: Result<nat>)
    ensures r.Success? <==> data.Arr? && NoNullItems(data.items)
    ensures r.Success? ==> r.value == CountStatus(data.items, s) && r.value <= |data.items|
    ensures r.Failure? ==> r.message == TYPE_ERROR
  {
    if data.Arr? && NoNullItems(data.items) then Success(CountStatus(data.items, s)) else Failure(TYPE_ERROR)
  }

  /** No record is both present and absent, so the two counts add up to at most the number of records. */
  lemma {:induction false} PresentAndAbsentBounded(items: seq<Value>)
    ensures CountStatus(items, "Present") + CountStatus(items, "Absent") <= |items|
  {
    if |items| > 0 {
      PresentAndAbsentBounded(items[..|items| - 1]);
    }
  }

  /** A count reaches the number of records exactly when every record has that status. */
  lemma {:induction false} CountStatusAll(items: seq<Value>, s: string)
    ensures CountStatus(items, s) == |items| <==> forall i :: 0 <= i < |items| ==> HasStatus(items[i], s)
  {
    if |items| > 0 {
      var init := items[..|items| - 1];
      CountStatusAll(init, s);
      assert forall i :: 0 <= i < |init| ==> init[i] == items[i];
    }
  }

  /** A status no record has counts zero. */
  lemma {:induction false} CountStatusNone(items: seq<Value>, s: string)
    requires forall i :: 0 <= i < |items| ==> !HasStatus(items[i], s)
    ensures CountStatus(items, s) == 0
  {
    if |items| > 0 {
      CountStatusNone(items[..|items| - 1], s);
    }
  }

  // ---------------------------------------------------------------------------
  // Alerts in a log list
  // ---------------------------------------------------------------------------

  /** `logs.filter((l) => l.alert_sent).length`. */
  function CountAlerts(logs: seq<Value>): (n: nat)
    ensures n <= |logs|
  {
    if |logs| == 0 then 0
    else CountAlerts(logs[..|logs| - 1]) + (if Truthy(Get(logs[|logs| - 1], "alert_sent")) then 1 else 0)
  }

  /** Every log counts exactly when every log's `alert_sent` is truthy. */
  lemma {:induction false} CountAlertsAll(logs: seq<Value>)
    ensures CountAlerts(logs) == |logs| <==> forall i :: 0 <= i < |logs| ==> Truthy(Get(logs[i], "alert_sent"))
  {
    if |logs| > 0 {
      var init := logs[..|logs| - 1];
      CountAlertsAll(init);
      assert forall i :: 0 <= i < |init| ==> init[i] == logs[i];
    }
  }

  /**
   * `result.logs?.filter((l) => l.alert_sent).length || 0`: no list gives 0,
   * a list of logs gives the number with a truthy `alert_sent`.
   */
  function AlertCount(result: Value): (r: Result<nat>)
    ensures Nullish(Get(result, "logs")) ==> r == Success(0)
    ensures Get(result, "logs").Arr? && NoNullItems(Get(result, "logs").items) ==>
              r == Success(CountAlerts(Get(result, "logs").items)) && r.value <= |Get(result, "logs").items|
    ensures r.Failure? <==>
              !Nullish(Get(result, "logs")) && !(Get(result, "logs").Arr? && NoNullItems(Get(result, "logs").items))
  {
    var logs := Get(result, "logs");
    if Nullish(logs) then Success(0)
    else if logs.Arr? && NoNullItems(logs.items) then Success(CountAlerts(logs.items))
    else Failure(TYPE_ERROR)
  }

  // ---------------------------------------------------------------------------
  // Distinct students in a log list
  // ---------------------------------------------------------------------------

  /** The `roll_no` of each log, in order. */
  function RollNumbers(logs: seq<Value>): (rs: seq<Value>)
    ensures |rs| == |logs|
    ensures forall i :: 0 <= i < |logs| ==> rs[i] == Get(logs[i], "roll_no")
  {
    seq(|logs|, i requires 0 <= i < |logs| => Get(logs[i], "roll_no"))
  }

  /** `new Set(vs)`: the values of `vs` with repeats dropped. */
  function Distinct(vs: seq<Value>): (d: set<Value>)
    ensures forall i :: 0 <= i < |vs| ==> vs[i] in d
    ensures forall v :: v in d ==> v in vs
  {
    if |vs| == 0 then {} else Distinct(vs[..|vs| - 1]) + {vs[|vs| - 1]}
  }

  /** A list has at most as many distinct values as entries, and a non-empty list at least one. */
  lemma {:induction false} DistinctBounded(vs: seq<Value>)
    ensures |Distinct(vs)| <= |vs|
    ensures |vs| > 0 ==> |Distinct(vs)| >= 1
  {
    if |vs| > 0 {
      DistinctBounded(vs[..|vs| - 1]);
      assert vs[|vs| - 1] in Distinct(vs);
    }
  }

  /** A list with no value repeated has as many distinct values as entries. */
  lemma {:induction false} DistinctOfUnique(vs: seq<Value>)
    requires forall i, j :: 0 <= i < j < |vs| ==> vs[i] != vs[j]
    ensures |Distinct(vs)| == |vs|
  {
    if |vs| > 0 {
      var init := vs[..|vs| - 1];
      DistinctOfUnique(init);
      assert vs[|vs| - 1] !in Distinct(init);
    }
  }

  /**
   * `new Set(result.logs?.map((l) => l.roll_no)).size || 0`: no list gives
   * 0, a list of logs the number of distinct roll numbers in it.
   */
  function UniqueStudents(result: Value): (r: Result<nat>)
    ensures Nullish(Get(result, "logs")) ==> r == Success(0)
    ensures Get(result, "logs").Arr? && NoNullItems(Get(result, "logs").items) ==>
              r == Success(|Distinct(RollNumbers(Get(result, "logs").items))|)
    ensures r.Failure? <==>
              !Nullish(Get(result, "logs")) && !(Get(result, "logs").Arr? && NoNullItems(Get(result, "logs").items))
  {
    var logs := Get(result, "logs");
    if Nullish(logs) then Success(0)
    else if logs.Arr? && NoNullItems(logs.items) then Success(|Distinct(RollNumbers(logs.items))|)
    else Failure(TYPE_ERROR)
  }

  /** The student count never exceeds the number of logs, and any log means at least one student. */
  lemma UniqueStudentsBounded(result: Value)
    requires Get(result, "logs").Arr? && NoNullItems(Get(result, "logs").items)
    ensures UniqueStudents(result).value <= |Get(result, "logs").items|
    ensures |Get(result, "logs").items| > 0 ==> UniqueStudents(result).value >= 1
  {
    DistinctBounded(RollNumbers(Get(result, "logs").items));
  }
}
