/**
 * The live attendance page: the form that names a session, the start of a
 * camera stream that is offered to the attendance backend over WebRTC, the
 * stop that releases it and asks the backend to close the session, and the
 * hand-off of the closed session to the surveillance page through local
 * storage.  The page's refs and state hooks are the fields of one object;
 * every awaited browser or network step is an input (a `StartOracle`, a
 * reply, the answer to `window.confirm`).
 */
module LiveAttendance {
  import opened Wrappers
  import opened JsStrings
  import opened JsValues
  import opened Http
  import opened Browser
  import DataTable

  const FILL_ALL_FIELDS: string := "Please fill all fields before starting the session"
  const STOP_FAILED: string := "Failed to stop session"
  const START_FAILED: string := "Stream start failed"

  /** `parseInt(semester)`, as the offer carries it. */
  function SemesterField(semester: string): Value
  {
    NumberValue(ParseInt(semester))
  }

  /**
   * A semester field of decimal digits is sent as the number it spells,
   * and a field `parseInt` cannot read is sent as NaN.
   */
  lemma SemesterFieldOfDigits(semester: string)
    ensures |semester| > 0 && (forall i :: 0 <= i < |semester| ==> IsDecimalDigit(semester[i])) ==>
              SemesterField(semester) == Num(ValueIn(semester, 10))
    ensures ParseInt(semester).None? ==> SemesterField(semester) == NaN
  {
    if |semester| > 0 && (forall i :: 0 <= i < |semester| ==> IsDecimalDigit(semester[i])) {
      ParseIntAgreesWithNumberOnDigits(semester);
    }
  }

  /** The body of the offer request: the SDP offer, the session named by the form and the converted semester. */
  function OfferPayload(offer: Offer, sessionName: string, className: string, courseName: string, semester: Value): (p: Value)
  {
    Obj([ Prop("sdp", Str(offer.sdp)),
          Prop("type", Str(offer.kind)),
          Prop("session", Str(sessionName)),
          Prop("class_name", Str(className)),
          Prop("course", Str(courseName)),
          Prop("semester", semester) ])
  }

  /** The payload carries the offer and the form verbatim, field by field. */
  lemma PayloadCarriesForm(offer: Offer, sessionName: string, className: string, courseName: string, semester: Value)
    ensures var p := OfferPayload(offer, sessionName, className, courseName, semester);
            && Get(p, "sdp") == Str(offer.sdp) && Get(p, "type") == Str(offer.kind)
            && Get(p, "session") == Str(sessionName) && Get(p, "class_name") == Str(className)
            && Get(p, "course") == Str(courseName) && Get(p, "semester") == semester
  {
    GetOfSixFields("sdp", "type", "session", "class_name", "course", "semester",
                   Str(offer.sdp), Str(offer.kind), Str(sessionName), Str(className), Str(courseName), semester);
  }

  /** A semester `parseInt` cannot read is sent as NaN, which the JSON body carries as null. */
  lemma UnreadableSemesterSentAsNull(offer: Offer, sessionName: string, className: string, courseName: string, semester: string)
    requires ParseInt(semester).None?
    ensures Get(Jsonify(OfferPayload(offer, sessionName, className, courseName, SemesterField(semester))), "semester") == Null
  {
    var p := OfferPayload(offer, sessionName, className, courseName, NaN);
    assert forall j :: 0 <= j < |p.props| ==> !p.props[j].val.Undefined?;
    PayloadCarriesForm(offer, sessionName, className, courseName, NaN);
    LookupUnshadowed(p.props, 5, "semester");
    GetJsonified(p.props, 5, "semester");
  }

  /**
   * Why an accepted start fails, step by step in the order the page awaits
   * them, or None when it succeeds: the camera, the video element, `play()`,
   * the offer, the local description, the offer request and its JSON body
   * (whose `response.ok` is never looked at), a null body, a body without
   * an `sdp`, the remote description.
   */
  function StartFailure(o: StartOracle): (f: Option<string>)
    ensures o.media.FailsWith? ==> f == Some(o.media.message)
    ensures o.media.Succeeds? && !o.videoMounted ==> f == Some("Video element not found in DOM")
    ensures ReachesOffer(o) ==> f == AnswerFailure(o.reply, o.setRemote)
  {
    if o.media.FailsWith? then Some(o.media.message)
    else if !o.videoMounted then Some("Video element not found in DOM")
    else if o.play.FailsWith? then Some(o.play.message)
    else if o.offer.Failure? then Some(o.offer.message)
    else if o.setLocal.FailsWith? then Some(o.setLocal.message)
    else AnswerFailure(o.reply, o.setRemote)
  }

  /** Why the backend's answer is not applied: the reply, a null body, no `sdp`, the remote description. */
  function AnswerFailure(reply: Reply, setRemote: Fallible): (f: Option<string>)
    ensures ReadJson(reply).Failure? ==> f == Some(ReadJson(reply).message)
    ensures ReadJson(reply).Success? && Nullish(ReadJson(reply).value) ==> f == Some(TYPE_ERROR)
  {
    match ReadJson(reply)
    case Failure(m) => Some(m)
    case Success(data) =>
      if Nullish(data) then Some(TYPE_ERROR)
      else if !Truthy(Get(data, "sdp")) then Some("Invalid SDP from backend")
      else if setRemote.FailsWith? then Some(setRemote.message)
      else None
  }

  /**
   * A start succeeds exactly when every browser step succeeds and the
   * backend answers with a truthy `sdp`; a parsed answer without one fails
   * with "Invalid SDP from backend", whether or not the reply was ok.
   */
  lemma StartSucceedsIff(o: StartOracle)
    ensures StartFailure(o).None? <==>
              && ReachesOffer(o) && o.setRemote.Succeeds?
              && ReadJson(o.reply).Success? && !Nullish(ReadJson(o.reply).value)
              && Truthy(Get(ReadJson(o.reply).value, "sdp"))
    ensures ReachesOffer(o) && o.reply.Reply? && o.reply.body.Success? && o.reply.body.value.Obj?
            && Lookup(o.reply.body.value.props, "sdp").None? ==>
              StartFailure(o) == Some("Invalid SDP from backend")
  {
  }


  /** The offer request a start sends: one, once every step before it has succeeded. */
  function OfferRequests(o: StartOracle, sessionName: string, className: string, courseName: string, semester: string): (rs: seq<Request>)
    ensures |rs| == (if ReachesOffer(o) then 1 else 0)
    ensures ReachesOffer(o) ==>
              rs[0].verb == "POST" && rs[0].path == "/attendance/offer" && rs[0].body == OfferPayload(o.offer.value, sessionName, className, courseName, SemesterField(semester))
  {
    if ReachesOffer(o)
    then [Request("POST", "/attendance/offer", [], OfferPayload(o.offer.value, sessionName, className, courseName, SemesterField(semester)))]
    else []
  }

  // ---------------------------------------------------------------------------
  // The results table
  // ---------------------------------------------------------------------------

  /** The four columns of the results table. */
  const RESULT_COLUMNS: seq<DataTable.Column> := [
    DataTable.Column("Roll No", "roll_no"),
    DataTable.Column("Student Name", "student_name"),
    DataTable.Column("Status", "status"),
    DataTable.Column("Timestamp", "timestamp")
  ]

  /**
   * The results table as the page writes it: shown once the stop result is
   * truthy, with `attendance_data` handed to the table unchecked.
   */
  function ResultsTableAsWritten(stopResult: Value): (t: Option<Result<seq<DataTable.Row>>>)
    ensures t.Some? <==> Truthy(stopResult)
  {
    if Truthy(stopResult) then Some(DataTable.RenderBody(RESULT_COLUMNS, Get(stopResult, "attendance_data"), [], None))
    else None
  }

  /**
   * The stop request's JSON is stored whatever the status of the reply, so
   * an error body such as `{"detail": "Not Found"}` is a truthy result
   * without `attendance_data`, and the table then throws on reading the
   * length of undefined.
   */
  lemma ErrorBodyBreaksResultsTable()
    ensures ResultsTableAsWritten(Obj([Prop("detail", Str("Not Found"))])) == Some(Failure(TYPE_ERROR))
  {
  }

  /** `attendance_data` when it is a list, and an empty list otherwise. */
  function AttendanceRows(stopResult: Value): (rows: Value)
    ensures rows.Arr?
    ensures Get(stopResult, "attendance_data").Arr? ==> rows == Get(stopResult, "attendance_data")
  {
    var d := Get(stopResult, "attendance_data");
    if d.Arr? then d else Arr([])
  }

  /** The results table with `attendance_data` guarded as the other report pages guard their lists. */
  function ResultsTable(stopResult: Value): (t: Option<Result<seq<DataTable.Row>>>)
    ensures t.Some? <==> Truthy(stopResult)
  {
    if Truthy(stopResult) then Some(DataTable.RenderBody(RESULT_COLUMNS, AttendanceRows(stopResult), [], None))
    else None
  }

  /**
   * With the guard, a truthy result whose `attendance_data` is missing or
   * not a list shows the one "No data available" row, and a list of
   * records makes one row of four cells per record, which the table shows
   * unless a cell holds an object.
   */
  lemma ResultsTableShowsRows(stopResult: Value)
    requires Truthy(stopResult)
    ensures !Get(stopResult, "attendance_data").Arr? ==>
              ResultsTable(stopResult) == Some(Success([DataTable.EmptyRow(5)]))
    ensures var d := Get(stopResult, "attendance_data");
            d.Arr? && |d.items| > 0 && (forall i :: 0 <= i < |d.items| ==> !Nullish(d.items[i])) ==>
              var rs := DataTable.RenderRows(RESULT_COLUMNS, d.items, [], None);
              && rs.Success? && |rs.value| == |d.items|
              && (forall i :: 0 <= i < |d.items| ==> |rs.value[i].cells| == 4)
              && ResultsTable(stopResult).value
                   == (if DataTable.Mountable(rs.value) then Success(rs.value) else Failure(DataTable.OBJECT_CHILD_ERROR))
  {
    var d := Get(stopResult, "attendance_data");
    if !d.Arr? {
      DataTable.EmptyTableRow(RESULT_COLUMNS, [], None);
    } else if |d.items| > 0 && (forall i :: 0 <= i < |d.items| ==> !Nullish(d.items[i])) {
      DataTable.RowsAlignWithHeader(RESULT_COLUMNS, d.items, [], None);
      var rs := DataTable.RenderRows(RESULT_COLUMNS, d.items, [], None);
      forall i | 0 <= i < |d.items|
        ensures |rs.value[i].cells| == 4
      {
        assert Success(rs.value[i]) == DataTable.RenderRow(RESULT_COLUMNS, d.items[i], [], None);
      }
    }
  }

  // ---------------------------------------------------------------------------
  // The page
  // ---------------------------------------------------------------------------

  class AttendanceCapture {
    var sessionName: string
    var className: string
    var courseName: string
    var semester: string

    var pcRef: PeerConnection?
    var streamRef: MediaStream?
    var trackIdRef: Value

    var isStreaming: bool
    var status: PageStatus
    var error: string
    var attendanceResult: Value

    /** The requests sent to the backend, oldest first. */
    var requests: seq<Request>
    /** Where `window.location.href` was sent, if anywhere. */
    var location: Option<string>
    const storage: LocalStorage

    /**
     * The page streams exactly while it holds a stream, the stream's
     * connection is open, and no operation leaves the page loading.
     */
    predicate Valid()
      reads this, pcRef
    {
      && (isStreaming <==> streamRef != null)
      && (streamRef != null ==> pcRef != null && !pcRef.closed)
      && status != Loading
    }

    /** `!sessionName || !className || !courseName || !semester` is false. */
    predicate FormFilled()
      reads this
    {
      sessionName != "" && className != "" && courseName != "" && semester != ""
    }

    /**
     * The results table the page shows below the form, as written: a
     * truthy result without `attendance_data` makes the table throw.
     */
    function Results(): (t: Option<Result<seq<DataTable.Row>>>)
      reads this
      ensures t.Some? <==> Truthy(attendanceResult)
      ensures Truthy(attendanceResult) && Get(attendanceResult, "attendance_data") == Undefined ==>
                t == Some(Failure(TYPE_ERROR))
      ensures Truthy(attendanceResult) && Get(attendanceResult, "attendance_data") == Arr([]) ==>
                t == Some(Success([DataTable.EmptyRow(5)]))
    {
      ResultsTableAsWritten(attendanceResult)
    }

    constructor (storage: LocalStorage)
      ensures Valid() && this.storage == storage
      ensures sessionName == "" && className == "" && courseName == "" && semester == ""
      ensures pcRef == null && streamRef == null && trackIdRef == Null
      ensures !isStreaming && status == Idle && error == "" && attendanceResult == Null
      ensures requests == [] && location == None
    {
      sessionName, className, courseName, semester := "", "", "", "";
      pcRef, streamRef, trackIdRef := null, null, Null;
      isStreaming, status, error, attendanceResult := false, Idle, "", Null;
      requests, location := [], None;
      this.storage := storage;
    }

    /** The four inputs' `onChange` handlers. */
    method EditForm(sessionName: string, className: string, courseName: string, semester: string)
      requires Valid()
      modifies this`sessionName, this`className, this`courseName, this`semester
      ensures Valid()
      ensures this.sessionName == sessionName && this.className == className
      ensures this.courseName == courseName && this.semester == semester
    {
      this.sessionName, this.className, this.courseName, this.semester := sessionName, className, courseName, semester;
    }

    /**
     * `startStream`.  Returns the camera stream it acquired, if it got that
     * far.  A start while streaming changes nothing; a start with an empty
     * field only sets the fill-all-fields error.  Otherwise the page goes
     * loading with no error, a fresh peer connection replaces `pcRef`, and
     * either every step succeeds (the page streams with all tracks added
     * and keeps the backend's `track_id`) or the page ends in error with
     * the acquired stream stopped and released.  The failed start leaves
     * its peer connection open in `pcRef`.
     */
    method StartStream(o: StartOracle) returns (acquired: MediaStream?)
      requires Valid()
      modifies this`pcRef, this`streamRef, this`trackIdRef, this`isStreaming, this`status, this`error, this`requests
      ensures Valid()
      ensures old(isStreaming) ==>
                && acquired == null && pcRef == old(pcRef) && streamRef == old(streamRef)
                && trackIdRef == old(trackIdRef) && isStreaming && status == old(status)
                && error == old(error) && requests == old(requests)
      ensures !old(isStreaming) && !old(FormFilled()) ==>
                && acquired == null && pcRef == old(pcRef) && streamRef == null
                && trackIdRef == old(trackIdRef) && !isStreaming && status == old(status)
                && error == FILL_ALL_FIELDS && requests == old(requests)
      ensures !old(isStreaming) && old(FormFilled()) ==>
                && pcRef != null && fresh(pcRef) && !pcRef.closed
                && (acquired != null <==> o.media.Succeeds?)
                && (acquired != null ==> fresh(acquired) && |acquired.live| == o.trackCount)
                && requests == old(requests) + OfferRequests(o, sessionName, className, courseName, semester)
                && (status == Succeeded <==> StartFailure(o).None?)
      ensures !old(isStreaming) && old(FormFilled()) && StartFailure(o).None? ==>
                && isStreaming && streamRef == acquired && acquired.AllLive()
                && pcRef.senders == o.trackCount && error == ""
                && trackIdRef == Get(ReadJson(o.reply).value, "track_id")
      ensures !old(isStreaming) && old(FormFilled()) && StartFailure(o).Some? ==>
                && !isStreaming && streamRef == null && status == Error
                && error == ErrorText(StartFailure(o).value, START_FAILED)
                && trackIdRef == old(trackIdRef)
                && (acquired != null ==> acquired.Stopped())
    {
      acquired := null;
      if isStreaming {
        return;
      }
      if !FormFilled() {
        error := FILL_ALL_FIELDS;
        return;
      }
      acquired := Launch(o, OfferRequests(o, sessionName, className, courseName, semester));
    }

    /**
     * `startStream` once both guards have passed: loading with no error, a
     * fresh peer connection, the `try` block, and on a failure the `catch`
     * block.
     */
    method Launch(o: StartOracle, offerRequests: seq<Request>) returns (acquired: MediaStream?)
      requires Valid() && !isStreaming && FormFilled()
      requires offerRequests == OfferRequests(o, sessionName, className, courseName, semester)
      modifies this`pcRef, this`streamRef, this`trackIdRef, this`isStreaming, this`status, this`error, this`requests
      ensures Valid()
      ensures pcRef != null && fresh(pcRef) && !pcRef.closed
      ensures acquired != null <==> o.media.Succeeds?
      ensures acquired != null ==> fresh(acquired) && |acquired.live| == o.trackCount
      ensures requests == old(requests) + offerRequests
      ensures status == Succeeded <==> StartFailure(o).None?
      ensures StartFailure(o).None? ==>
                && isStreaming && streamRef == acquired && acquired.AllLive()
                && pcRef.senders == o.trackCount && error == ""
                && trackIdRef == Get(ReadJson(o.reply).value, "track_id")
      ensures StartFailure(o).Some? ==>
                && !isStreaming && streamRef == null && status == Error
                && error == ErrorText(StartFailure(o).value, START_FAILED)
                && trackIdRef == old(trackIdRef)
                && (acquired != null ==> acquired.Stopped())
    {
      status := Loading;
      error := "";
      var pc := new PeerConnection();
      pcRef := pc;
      var failure;
      failure, acquired := Negotiate(pc, o, offerRequests);
      assert requests == old(requests) + offerRequests by {
        if !ReachesOffer(o) {
          assert offerRequests == [];
        }
      }
      if failure.Some? {
        Abandon(failure.value);
      }
    }

    /** The `catch` block of `startStream`: the error, then the stream stopped and released. */
    method Abandon(message: string)
      requires pcRef != null && !pcRef.closed
      modifies this`status, this`error, this`streamRef, this`isStreaming, streamRef
      ensures !isStreaming && streamRef == null && status == Error && error == ErrorText(message, START_FAILED)
      ensures old(streamRef) != null ==> old(streamRef).Stopped() && |old(streamRef).live| == old(|streamRef.live|)
      ensures Valid()
    {
      status := Error;
      error := ErrorText(message, START_FAILED);
      if streamRef != null {
        streamRef.StopTracks();
        streamRef := null;
      }
      isStreaming := false;
    }

    /**
     * The `try` block of `startStream` up to `play()`: the camera, the
     * video element, playback.  On a failure the stream acquired so far is
     * still held, for the `catch` block to release.
     */
    method Negotiate(pc: PeerConnection, o: StartOracle, offerRequests: seq<Request>) returns (failure: Option<string>, acquired: MediaStream?)
      requires !pc.closed && pc.senders == 0
      modifies this`streamRef, this`isStreaming, this`requests, this`status, this`trackIdRef, pc
      ensures failure == StartFailure(o)
      ensures !pc.closed
      ensures acquired != null <==> o.media.Succeeds?
      ensures acquired == null ==> streamRef == old(streamRef) && isStreaming == old(isStreaming)
      ensures acquired != null ==>
                fresh(acquired) && |acquired.live| == o.trackCount && acquired.AllLive() && streamRef == acquired && isStreaming
      ensures requests == old(requests) + (if ReachesOffer(o) then offerRequests else [])
      ensures failure.None? ==>
                status == Succeeded && pc.senders == o.trackCount && trackIdRef == Get(ReadJson(o.reply).value, "track_id")
      ensures failure.Some? ==> status == old(status) && trackIdRef == old(trackIdRef)
    {
      if o.media.FailsWith? {
        return Some(o.media.message), null;
      }
      var stream := new MediaStream(o.trackCount);
      acquired := stream;
      streamRef := stream;
      isStreaming := true;
      if !o.videoMounted {
        failure := Some("Video element not found in DOM");
      } else if o.play.FailsWith? {
        failure := Some(o.play.message);
      } else {
        failure := Exchange(pc, stream, o, offerRequests);
      }
    }

    /**
     * The rest of the `try` block: adding the tracks, the offer, the local
     * description and the offer request, which is `offerRequests` as the
     * form stands.
     */
    method Exchange(pc: PeerConnection, stream: MediaStream, o: StartOracle, offerRequests: seq<Request>) returns (failure: Option<string>)
      requires !pc.closed && pc.senders == 0 && |stream.live| == o.trackCount
      requires o.media.Succeeds? && o.videoMounted && o.play.Succeeds?
      modifies this`requests, this`status, this`trackIdRef, pc
      ensures failure == StartFailure(o)
      ensures !pc.closed && pc.senders == o.trackCount
      ensures requests == old(requests) + (if ReachesOffer(o) then offerRequests else [])
      ensures failure.None? ==> status == Succeeded && trackIdRef == Get(ReadJson(o.reply).value, "track_id")
      ensures failure.Some? ==> status == old(status) && trackIdRef == old(trackIdRef)
    {
      pc.AddTracks(stream);
      if o.offer.Failure? {
        return Some(o.offer.message);
      }
      if o.setLocal.FailsWith? {
        return Some(o.setLocal.message);
      }
      requests := requests + offerRequests;
      failure := ApplyAnswer(o.reply, o.setRemote);
    }

    /** `await res.json()`, the `sdp` check, `setRemoteDescription`, then the track id. */
    method ApplyAnswer(reply: Reply, setRemote: Fallible) returns (failure: Option<string>)
      modifies this`status, this`trackIdRef
      ensures failure == AnswerFailure(reply, setRemote)
      ensures failure.None? ==> status == Succeeded && trackIdRef == Get(ReadJson(reply).value, "track_id")
      ensures failure.Some? ==> status == old(status) && trackIdRef == old(trackIdRef)
    {
      var data := ReadJson(reply);
      if data.Failure? {
        failure := Some(data.message);
      } else if Nullish(data.value) {
        failure := Some(TYPE_ERROR);
      } else if !Truthy(Get(data.value, "sdp")) {
        failure := Some("Invalid SDP from backend");
      } else if setRemote.FailsWith? {
        failure := Some(setRemote.message);
      } else {
        failure := None;
        trackIdRef := Get(data.value, "track_id");
        status := Succeeded;
      }
    }

    /**
     * `stopStream`.  Always stops the stream's tracks, closes the peer
     * connection, drops both and ends idle and not streaming.  Only with a
     * truthy track id does it post the stop request; its JSON becomes the
     * attendance result, and if the user confirms, the result's
     * `session_info` is written to the hand-off slot and the page moves to
     * the surveillance page.  A stop request that fails, or a null result
     * after confirming, sets "Failed to stop session".  The track id is
     * kept.
     */
    method StopStream(reply: Reply, confirmed: bool)
      requires Valid()
      modifies this`streamRef, this`pcRef, this`isStreaming, this`status, this`error, this`attendanceResult,
               this`requests, this`location, streamRef, pcRef, storage
      ensures Valid()
      ensures streamRef == null && pcRef == null && !isStreaming && status == Idle
      ensures old(streamRef) != null ==> old(streamRef).Stopped() && |old(streamRef).live| == old(|streamRef.live|)
      ensures old(pcRef) != null ==> old(pcRef).closed
      ensures !Truthy(trackIdRef) ==>
                && requests == old(requests) && error == old(error) && attendanceResult == old(attendanceResult)
                && location == old(location) && storage.items == old(storage.items)
      ensures Truthy(trackIdRef) ==>
                requests == old(requests) + [Request("POST", "/attendance/stop/" + ToJsString(trackIdRef), [], Undefined)]
      ensures Truthy(trackIdRef) && ReadJson(reply).Failure? ==>
                && error == STOP_FAILED && attendanceResult == old(attendanceResult)
                && location == old(location) && storage.items == old(storage.items)
      ensures Truthy(trackIdRef) && ReadJson(reply).Success? ==>
                && attendanceResult == ReadJson(reply).value
                && (!confirmed ==> error == old(error) && location == old(location) && storage.items == old(storage.items))
                && (confirmed && Nullish(attendanceResult) ==>
                      error == STOP_FAILED && location == old(location) && storage.items == old(storage.items))
                && (confirmed && !Nullish(attendanceResult) ==>
                      && error == old(error) && location == Some("/surveillance")
                      && storage.items == old(storage.items)[HANDOFF_KEY := Serialize(Get(attendanceResult, "session_info"))])
    {
      status := Loading;
      isStreaming := false;
      if streamRef != null {
        streamRef.StopTracks();
        streamRef := null;
      }
      if pcRef != null {
        pcRef.Close();
        pcRef := null;
      }
      if Truthy(trackIdRef) {
        requests := requests + [Request("POST", "/attendance/stop/" + ToJsString(trackIdRef), [], Undefined)];
        var stopResult := ReadJson(reply);
        if stopResult.Failure? {
          error := STOP_FAILED;
        } else {
          attendanceResult := stopResult.value;
          if confirmed {
            if Nullish(stopResult.value) {
              error := STOP_FAILED;
            } else {
              storage.SetItem(HANDOFF_KEY, Serialize(Get(stopResult.value, "session_info")));
              location := Some("/surveillance");
            }
          }
        }
      }
      status := Idle;
    }
  }
}
