/**
 * The records page: it names a stored collection of face-embedding records
 * by session and class, asks the resources store to fetch it, flattens each
 * record's metadata for the table, and edits or deletes the selected
 * student through two modal dialogs.  The store's data is an input of the
 * pure parts; the page's hooks are the fields of one object, and the thunks
 * it dispatches, the requests it sends itself and the alerts it raises are
 * recorded in order.
 */
module Records {
  import opened Wrappers
  import opened JsStrings
  import opened JsValues
  import opened Http
  import opened Browser
  import ResourcesSlice

  // ---------------------------------------------------------------------------
  // The collection and its flattening
  // ---------------------------------------------------------------------------

  /** The store key under which the records of one session and class are kept. */
  function ResourcePath(session: string, className: string): (p: string)
    ensures |p| == |"chroma/records/"| + |session| + 1 + |className|
  {
    "chroma/records/" + session + "/" + className
  }

  /**
   * Two sessions without a '/' name different collections unless both the
   * session and the class agree, so one fetch never lands on another
   * session's key.
   */
  lemma ResourcePathSeparates(s1: string, c1: string, s2: string, c2: string)
    requires forall i :: 0 <= i < |s1| ==> s1[i] != '/'
    requires forall i :: 0 <= i < |s2| ==> s2[i] != '/'
    ensures ResourcePath(s1, c1) == ResourcePath(s2, c2) <==> s1 == s2 && c1 == c2
  {
    if ResourcePath(s1, c1) == ResourcePath(s2, c2) {
      var p, n := ResourcePath(s1, c1), |"chroma/records/"|;
      assert p[n..] == s1 + "/" + c1 == s2 + "/" + c2;
      var a, b := s1 + "/" + c1, s2 + "/" + c2;
      SlashEndsSession(s1, c1);
      SlashEndsSession(s2, c2);
      assert s1 == a[..|s1|] == b[..|s2|] == s2;
      assert c1 == a[|s1| + 1..] == b[|s2| + 1..] == c2;
    }
  }

  /** The index of the first '/' in `t`, or its length when there is none. */
  function FirstSlash(t: string): (n: nat)
    ensures n <= |t|
  {
    if |t| == 0 || t[0] == '/' then 0 else 1 + FirstSlash(t[1..])
  }

  /** In `s + "/" + c` with no '/' in `s`, the first '/' is the one after `s`. */
  lemma {:induction false} SlashEndsSession(s: string, c: string)
    requires forall i :: 0 <= i < |s| ==> s[i] != '/'
    ensures FirstSlash(s + "/" + c) == |s|
  {
    if |s| > 0 {
      assert (s + "/" + c)[1..] == s[1..] + "/" + c;
      SlashEndsSession(s[1..], c);
    }
  }

  /** `data[resourcePath] || []`. */
  function Records(data: map<string, Value>, session: string, className: string): (r: Value)
    ensures Truthy(r) || r == Arr([])
    ensures ResourcePath(session, className) !in data ==> r == Arr([])
    ensures Truthy(ResourcesSlice.DataAt(data, ResourcePath(session, className))) ==>
              r == data[ResourcePath(session, className)]
  {
    Or(ResourcesSlice.DataAt(data, ResourcePath(session, className)), Arr([]))
  }

  /** A metadata field, or "" when the record has no metadata or the field is falsy. */
  function MetadataField(record: Value, key: string): (v: Value)
    ensures Truthy(v) || v == Str("")
  {
    Or(OptGet(Get(record, "metadata"), key), Str(""))
  }

  /** The table row one record becomes. */
  function FlattenRecord(r: Value): (row: Value)
  {
    Obj([ Prop("student_id", Get(r, "student_id")),
          Prop("class_name", MetadataField(r, "class_name")),
          Prop("session", MetadataField(r, "session")),
          Prop("semester", MetadataField(r, "semester")),
          Prop("roll_no", MetadataField(r, "roll_no")),
          Prop("embedding_length", Get(r, "embedding_length")),
          Prop("root_folder", Or(Get(r, "root_folder"), Str(""))) ])
  }

  /**
   * A row copies `student_id` and `embedding_length` as they are and each
   * metadata field and `root_folder` when truthy, "" otherwise; a record
   * without metadata gives "" in all four metadata columns.
   */
  lemma FlattenRecordFields(r: Value)
    ensures var row := FlattenRecord(r);
            && Get(row, "student_id") == Get(r, "student_id")
            && Get(row, "embedding_length") == Get(r, "embedding_length")
            && Get(row, "class_name") == MetadataField(r, "class_name")
            && Get(row, "session") == MetadataField(r, "session")
            && Get(row, "semester") == MetadataField(r, "semester")
            && Get(row, "roll_no") == MetadataField(r, "roll_no")
            && Get(row, "root_folder") == (if Truthy(Get(r, "root_folder")) then Get(r, "root_folder") else Str(""))
    ensures Nullish(Get(r, "metadata")) ==>
              && MetadataField(r, "class_name") == Str("") && MetadataField(r, "session") == Str("")
              && MetadataField(r, "semester") == Str("") && MetadataField(r, "roll_no") == Str("")
  {
    GetOfSevenFields("student_id", "class_name", "session", "semester", "roll_no", "embedding_length", "root_folder",
                     Get(r, "student_id"), MetadataField(r, "class_name"), MetadataField(r, "session"),
                     MetadataField(r, "semester"), MetadataField(r, "roll_no"), Get(r, "embedding_length"),
                     Or(Get(r, "root_folder"), Str("")));
  }

  /**
   * `records.map(...)`: a list of records becomes one row per record, in
   * order.  A value that is not a list has no `map`, and reading
   * `r.student_id` of a null record throws; both are TypeErrors.
   */
  function FlattenRecords(records: Value): (rows: Result<seq<Value>>)
    ensures rows.Failure? ==> rows.message == TYPE_ERROR
  {
    if records.Arr? && NoNullItems(records.items) then
      Success(seq(|records.items|, i requires 0 <= i < |records.items| => FlattenRecord(records.items[i])))
    else Failure(TYPE_ERROR)
  }

  /**
   * Flattening succeeds exactly on a list without null entries, keeps its
   * length and order, and a collection the store does not hold flattens to
   * no rows.
   */
  lemma FlattenKeepsOrder(records: Value)
    ensures FlattenRecords(records).Success? <==> records.Arr? && NoNullItems(records.items)
    ensures FlattenRecords(records).Success? ==>
              && |FlattenRecords(records).value| == |records.items|
              && forall i :: 0 <= i < |records.items| ==> FlattenRecords(records).value[i] == FlattenRecord(records.items[i])
    ensures FlattenRecords(Arr([])) == Success([])
  {
    var empty := FlattenRecords(Arr([]));
    assert |empty.value| == 0;
  }

  /** An unfetched collection shows no rows, whatever else the store holds. */
  lemma UnfetchedShowsNothing(data: map<string, Value>, session: string, className: string)
    requires ResourcePath(session, className) !in data
    ensures FlattenRecords(Records(data, session, className)) == Success([])
  {
    FlattenKeepsOrder(Arr([]));
  }

  // ---------------------------------------------------------------------------
  // The update and delete requests
  // ---------------------------------------------------------------------------

  /** The thunks the page dispatches to the resources store. */
  datatype Thunk =
    | FetchResources(resource: string)
    | UpdateResource(resource: string, id: Value, body: Value)

  /** The body of the update: the selected row's identity and the edited root folder. */
  function UpdatePayload(row: Value, rootFolder: Value): (p: Value)
  {
    Obj([ Prop("student_id", Get(row, "student_id")),
          Prop("session", Get(row, "session")),
          Prop("class_name", Get(row, "class_name")),
          Prop("root_folder", rootFolder) ])
  }

  /** The body of the delete: the selected row's identity. */
  function DeletePayload(row: Value): (p: Value)
  {
    Obj([ Prop("student_id", Get(row, "student_id")),
          Prop("session", Get(row, "session")),
          Prop("class_name", Get(row, "class_name")) ])
  }

  /** Both payloads identify the student by the row's own fields, and only the update carries the folder. */
  lemma PayloadsCarryRow(row: Value, rootFolder: Value)
    ensures var u, d := UpdatePayload(row, rootFolder), DeletePayload(row);
            && Get(u, "student_id") == Get(row, "student_id") && Get(d, "student_id") == Get(row, "student_id")
            && Get(u, "session") == Get(row, "session") && Get(d, "session") == Get(row, "session")
            && Get(u, "class_name") == Get(row, "class_name") && Get(d, "class_name") == Get(row, "class_name")
            && Get(u, "root_folder") == rootFolder
  {
    var u, d := UpdatePayload(row, rootFolder).props, DeletePayload(row).props;
    LookupUnshadowed(u, 0, "student_id");
    LookupUnshadowed(u, 1, "session");
    LookupUnshadowed(u, 2, "class_name");
    LookupUnshadowed(u, 3, "root_folder");
    LookupUnshadowed(d, 0, "student_id");
    LookupUnshadowed(d, 1, "session");
    LookupUnshadowed(d, 2, "class_name");
  }

  /**
   * Why the delete request fails, or None: a network error; for a reply
   * that is not ok, a body that is not JSON, a null body (reading `detail`
   * throws), else the text of `detail?.[0]?.msg` or "Delete failed".  An ok
   * reply is never read.
   */
  function DeleteFailure(reply: Reply): (f: Option<string>)
    ensures reply.NetworkError? ==> f == Some(reply.message)
    ensures reply.Reply? ==> (f.None? <==> reply.ok)
  {
    match reply
    case NetworkError(m) => Some(m)
    case Reply(ok, body) =>
      if ok then None
      else
        match body
        case Failure(m) => Some(m)
        case Success(errorData) =>
          if Nullish(errorData) then Some(TYPE_ERROR)
          else Some(ToJsString(Or(OptGet(OptGet(Get(errorData, "detail"), "0"), "msg"), Str("Delete failed"))))
  }

  /**
   * A validation error `{"detail": [{"msg": m}]}` fails with `m`, or with
   * "Delete failed" when `m` is empty; an error whose `detail` is a plain
   * string has no `msg` and fails with "Delete failed".
   */
  lemma DeleteFailureMessages(m: string, detail: string)
    ensures DeleteFailure(Reply(false, Success(Obj([Prop("detail", Arr([Obj([Prop("msg", Str(m))])]))]))))
            == Some(if m == "" then "Delete failed" else m)
    ensures DeleteFailure(Reply(false, Success(Obj([Prop("detail", Str(detail))])))) == Some("Delete failed")
  {
    assert ArrayIndex("0") == Some(0) by {
      assert DigitPrefixLength("0", 10) == 1 by {
        assert DigitPrefixLength("0"[1..], 10) == 0;
      }
    }
    assert ArrayIndex("msg") == None by {
      assert !IsDecimalDigit('m');
    }
  }

  // ---------------------------------------------------------------------------
  // The page
  // ---------------------------------------------------------------------------

  class RecordPage {
    var session: string
    var className: string
    var selectedRow: Value
    var rootFolder: Value
    var showUpdateModal: bool
    var showDeleteModal: bool

    /** The thunks dispatched to the store, oldest first. */
    var dispatched: seq<Thunk>
    /** The requests the page sends itself, oldest first. */
    var requests: seq<Request>
    /** The texts passed to `alert`, oldest first. */
    var alerts: seq<string>

    constructor ()
      ensures session == "" && className == "" && selectedRow == Null && rootFolder == Str("")
      ensures !showUpdateModal && !showDeleteModal
      ensures dispatched == [] && requests == [] && alerts == []
    {
      session, className, selectedRow, rootFolder := "", "", Null, Str("");
      showUpdateModal, showDeleteModal := false, false;
      dispatched, requests, alerts := [], [], [];
    }

    /** The two filter inputs' `onChange` handlers. */
    method EditFilters(session: string, className: string)
      modifies this`session, this`className
      ensures this.session == session && this.className == className
    {
      this.session, this.className := session, className;
    }

    /** `handleFetch`: fetch the named collection, unless a filter is empty. */
    method HandleFetch()
      modifies this`dispatched
      ensures session == "" || className == "" ==> dispatched == old(dispatched)
      ensures session != "" && className != "" ==>
                dispatched == old(dispatched) + [FetchResources(ResourcePath(session, className))]
    {
      if session == "" || className == "" {
        return;
      }
      dispatched := dispatched + [FetchResources(ResourcePath(session, className))];
    }

    /** `openUpdateModal(row)`, for a row of the table (always an object). */
    method OpenUpdateModal(row: Value)
      requires !Nullish(row)
      modifies this`selectedRow, this`rootFolder, this`showUpdateModal
      ensures selectedRow == row && showUpdateModal
      ensures Truthy(Get(row, "root_folder")) ==> rootFolder == Get(row, "root_folder")
      ensures !Truthy(Get(row, "root_folder")) ==> rootFolder == Str("")
    {
      selectedRow := row;
      rootFolder := Or(Get(row, "root_folder"), Str(""));
      showUpdateModal := true;
    }

    /** The root-folder input of the update dialog. */
    method EditRootFolder(text: string)
      modifies this`rootFolder
      ensures rootFolder == Str(text)
    {
      rootFolder := Str(text);
    }

    /** `openDeleteModal(row)`. */
    method OpenDeleteModal(row: Value)
      modifies this`selectedRow, this`showDeleteModal
      ensures selectedRow == row && showDeleteModal
    {
      selectedRow := row;
      showDeleteModal := true;
    }

    /**
     * `handleUpdateSubmit`, with `outcome` how the dispatched update
     * settles (a rejection carries the thunk's error message).  Without a
     * selected row it does nothing.  Otherwise it dispatches the update of
     * the row's student; on success it alerts, closes the dialog and
     * fetches the collection again, and on failure it only alerts.
     */
    method HandleUpdateSubmit(outcome: Fallible)
      modifies this`dispatched, this`alerts, this`showUpdateModal
      ensures !Truthy(selectedRow) ==>
                dispatched == old(dispatched) && alerts == old(alerts) && showUpdateModal == old(showUpdateModal)
      ensures var update := UpdateResource("chroma/update-student", Get(selectedRow, "student_id"), UpdatePayload(selectedRow, rootFolder));
              Truthy(selectedRow) && outcome.Succeeds? ==>
                && !showUpdateModal
                && alerts == old(alerts) + ["Student " + ToJsString(Get(selectedRow, "student_id")) + " updated successfully"]
                && (session == "" || className == "" ==> dispatched == old(dispatched) + [update])
                && (session != "" && className != "" ==>
                      dispatched == old(dispatched) + [update, FetchResources(ResourcePath(session, className))])
      ensures Truthy(selectedRow) && outcome.FailsWith? ==>
                && showUpdateModal == old(showUpdateModal)
                && alerts == old(alerts) + ["Update failed: " + outcome.message]
                && dispatched == old(dispatched) + [UpdateResource("chroma/update-student", Get(selectedRow, "student_id"), UpdatePayload(selectedRow, rootFolder))]
    {
      if !Truthy(selectedRow) {
        return;
      }
      var id := Get(selectedRow, "student_id");
      dispatched := dispatched + [UpdateResource("chroma/update-student", id, UpdatePayload(selectedRow, rootFolder))];
      match outcome {
        case Succeeds =>
          alerts := alerts + ["Student " + ToJsString(id) + " updated successfully"];
          showUpdateModal := false;
          HandleFetch();
        case FailsWith(m) =>
          alerts := alerts + ["Update failed: " + m];
      }
    }

    /**
     * `handleDeleteConfirm`, with `reply` what the delete request gets
     * back.  Without a selected row it does nothing.  Otherwise it sends
     * the delete; when that succeeds it alerts, closes the dialog and
     * fetches the collection again, and when it fails it alerts the reason.
     */
    method HandleDeleteConfirm(reply: Reply)
      modifies this`requests, this`alerts, this`showDeleteModal, this`dispatched
      ensures !Truthy(selectedRow) ==>
                && requests == old(requests) && alerts == old(alerts)
                && showDeleteModal == old(showDeleteModal) && dispatched == old(dispatched)
      ensures Truthy(selectedRow) ==>
                requests == old(requests) + [Request("DELETE", "/chroma/delete-student", [], DeletePayload(selectedRow))]
      ensures Truthy(selectedRow) && DeleteFailure(reply).None? ==>
                && !showDeleteModal
                && alerts == old(alerts) + ["Student " + ToJsString(Get(selectedRow, "student_id")) + " deleted successfully"]
                && (session == "" || className == "" ==> dispatched == old(dispatched))
                && (session != "" && className != "" ==>
                      dispatched == old(dispatched) + [FetchResources(ResourcePath(session, className))])
      ensures Truthy(selectedRow) && DeleteFailure(reply).Some? ==>
                && showDeleteModal == old(showDeleteModal) && dispatched == old(dispatched)
                && alerts == old(alerts) + ["Delete failed: " + DeleteFailure(reply).value]
    {
      if !Truthy(selectedRow) {
        return;
      }
      requests := requests + [Request("DELETE", "/chroma/delete-student", [], DeletePayload(selectedRow))];
      var failure := DeleteFailure(reply);
      if failure.None? {
        alerts := alerts + ["Student " + ToJsString(Get(selectedRow, "student_id")) + " deleted successfully"];
        showDeleteModal := false;
        HandleFetch();
      } else {
        alerts := alerts + ["Delete failed: " + failure.value];
      }
    }
  }
}
