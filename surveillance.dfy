/**
 * The surveillance page: it picks up the session the attendance page handed
 * over through local storage, offers a camera stream to the surveillance
 * backend over WebRTC with that session's details, and on stop releases the
 * camera, asks the backend to close the track and returns to the attendance
 * page.  As on the attendance page, the refs and state hooks are the fields
 * of one object and every awaited browser or network step is an input.
 */
module Surveillance {
  import opened Wrappers
  import opened JsValues
  import opened Http
  import opened Browser

  const SESSION_MISSING: string := "\U{2757} Session information missing."
  const STOP_FAILED: string := "Error stopping surveillance"
  const START_FAILED: string := "Failed to start stream"

  // ---------------------------------------------------------------------------
  // Loading the handed-over session
  // ---------------------------------------------------------------------------

  /**
   * What the load effect makes of the hand-off item: nothing when the item
   * is missing or empty, nothing when it does not parse (the `catch` only
   * logs), and the parsed value otherwise.
   */
  function LoadedSession(saved: Option<Stored>): (info: Option<Value>)
    ensures saved.None? ==> info.None?
    ensures saved.Some? && !IsTruthyText(saved.value) ==> info.None?
    ensures info.Some? ==> Parse(saved.value) == Success(info.value)
  {
    if saved.Some? && IsTruthyText(saved.value) && Parse(saved.value).Success? then Some(Parse(saved.value).value)
    else None
  }

  /**
   * The hand-off: the surveillance page loads back the `session_info` the
   * attendance page stored, as JSON carries it, and for JSON data exactly
   * that value.  A missing `session_info` was stored as the text
   * "undefined", which loads nothing.
   */
  lemma HandoffDelivers(v: Value)
    ensures !v.Undefined? ==> LoadedSession(Some(Serialize(v))) == Some(Jsonify(v))
    ensures IsJsonData(v) ==> LoadedSession(Some(Serialize(v))) == Some(v)
    ensures v.Undefined? ==> LoadedSession(Some(Serialize(v))).None?
  {
    StoredRoundTrip(v);
  }

  /** A handed-over object arrives as an object, so the start's session guard passes. */
  lemma HandedOverObjectIsTruthy(props: seq<Prop>)
    ensures LoadedSession(Some(Serialize(Obj(props)))).Some?
    ensures Truthy(LoadedSession(Some(Serialize(Obj(props)))).value)
  {
    HandoffDelivers(Obj(props));
  }

  // ---------------------------------------------------------------------------
  // The offer
  // ---------------------------------------------------------------------------

  /** The body of the offer request: the SDP offer and five fields copied from the session. */
  function OfferPayload(offer: Offer, info: Value): (p: Value)
  {
    Obj([ Prop("sdp", Str(offer.sdp)),
          Prop("type", Str(offer.kind)),
          Prop("year", Get(info, "year")),
          Prop("semester", Get(info, "semester")),
          Prop("program", Get(info, "program")),
          Prop("unmarked_students", Get(info, "unmarked_students")),
          Prop("session_id", Get(info, "session_id")) ])
  }

  /** The payload carries the offer and the session's fields unchanged. */
  lemma PayloadCopiesSession(offer: Offer, info: Value)
    ensures var p := OfferPayload(offer, info);
            && Get(p, "sdp") == Str(offer.sdp) && Get(p, "type") == Str(offer.kind)
            && Get(p, "year") == Get(info, "year") && Get(p, "semester") == Get(info, "semester")
            && Get(p, "program") == Get(info, "program")
            && Get(p, "unmarked_students") == Get(info, "unmarked_students")
            && Get(p, "session_id") == Get(info, "session_id")
  {
    GetOfSevenFields("sdp", "type", "year", "semester", "program", "unmarked_students", "session_id",
                     Str(offer.sdp), Str(offer.kind), Get(info, "year"), Get(info, "semester"), Get(info, "program"),
                     Get(info, "unmarked_students"), Get(info, "session_id"));
  }

  /**
   * Why an accepted start fails, in the order the page awaits the steps, or
   * None when it succeeds: the camera, the video element (assigning
   * `srcObject` of a missing element is a TypeError), `play()`, the offer,
   * the local description, the offer request and its JSON body (never
   * checked for `response.ok`), a null body, the remote description.
   */
  function StartFailure(o: StartOracle): (f: Option<string>)
    ensures o.media.FailsWith? ==> f == Some(o.media.message)
    ensures o.media.Succeeds? && !o.videoMounted ==> f == Some(TYPE_ERROR)
    ensures ReachesOffer(o) ==> f == AnswerFailure(o.reply, o.setRemote)
  {
    if o.media.FailsWith? then Some(o.media.message)
    else if !o.videoMounted then Some(TYPE_ERROR)
    else if o.play.FailsWith? then Some(o.play.message)
    else if o.offer.Failure? then Some(o.offer.message)
    else if o.setLocal.FailsWith? then Some(o.setLocal.message)
    else AnswerFailure(o.reply, o.setRemote)
  }

  /**
   * Why the backend's answer is not applied: the reply, a null body (reading
   * its `sdp` throws), the remote description.  Unlike the attendance page
   * there is no check of `sdp` before it is handed to the browser.
   */
  function AnswerFailure(reply: Reply, setRemote: Fallible): (f: Option<string>)
    ensures ReadJson(reply).Failure? ==> f == Some(ReadJson(reply).message)
    ensures ReadJson(reply).Success? && Nullish(ReadJson(reply).value) ==> f == Some(TYPE_ERROR)
    ensures ReadJson(reply).Success? && !Nullish(ReadJson(reply).value) ==>
              (f.None? <==> setRemote.Succeeds?)
  {
    match ReadJson(reply)
    case Failure(m) => Some(m)
    case Success(data) =>
      if Nullish(data) then Some(TYPE_ERROR)
      else if setRemote.FailsWith? then Some(setRemote.message)
      else None
  }

  /**
   * A start succeeds exactly when every browser step succeeds and the reply
   * parses to a non-null body; an error reply with a JSON body is not
   * noticed until the browser rejects its description.
   */
  lemma StartSucceedsIff(o: StartOracle)
    ensures StartFailure(o).None? <==>
              && ReachesOffer(o) && o.setRemote.Succeeds?
              && ReadJson(o.reply).Success? && !Nullish(ReadJson(o.reply).value)
    ensures ReachesOffer(o) && o.setRemote.Succeeds? && o.reply.Reply? && !o.reply.ok
            && o.reply.body.Success? && !Nullish(o.reply.body.value) ==>
              StartFailure(o).None?
  {
  }


  /** The offer request a start sends: one, once every step before it has succeeded. */
  function OfferRequests(o: StartOracle, info: Value): (rs: seq<Request>)
    ensures |rs| == (if ReachesOffer(o) then 1 else 0)
    ensures ReachesOffer(o) ==>
              rs[0].verb == "POST" && rs[0].path == "/surveillance/offer" && rs[0].body == OfferPayload(o.offer.value, info)
  {
    if ReachesOffer(o) then [Request("POST", "/surveillance/offer", [], OfferPayload(o.offer.value, info))] else []
  }

  // ---------------------------------------------------------------------------
  // The page
  // ---------------------------------------------------------------------------

  class SurveillanceMonitor {
    var pcRef: PeerConnection?
    var streamRef: MediaStream?
    var trackIdRef: Value

    var isStreaming: bool
    var status: PageStatus
    var error: string
    var sessionInfo: Value

    /** The requests sent to the backend, oldest first. */
    var requests: seq<Request>
    /** Where `window.location.href` was sent, if anywhere. */
    var location: Option<string>
    const storage: LocalStorage

    /**
     * The page streams exactly while it holds a stream, the stream's
     * connection is open, and no operation leaves the page loading.
     */
    predicate Valid()
      reads this, pcRef
    {
      && (isStreaming <==> streamRef != null)
      && (streamRef != null ==> pcRef != null && !pcRef.closed)
      && status != Loading
    }

    constructor (storage: LocalStorage)
      ensures Valid() && this.storage == storage
      ensures pcRef == null && streamRef == null && trackIdRef == Null
      ensures !isStreaming && status == Idle && error == "" && sessionInfo == Null
      ensures requests == [] && location == None
    {
      pcRef, streamRef, trackIdRef := null, null, Null;
      isStreaming, status, error, sessionInfo := false, Idle, "", Null;
      requests, location := [], None;
      this.storage := storage;
    }

    /**
     * The mount effect: read the hand-off item and, if the page is still
     * mounted when the deferred update runs, keep what it parses to.
     */
    method LoadSessionInfo(stillMounted: bool)
      modifies this`sessionInfo
      ensures var loaded := LoadedSession(storage.GetItem(HANDOFF_KEY));
              sessionInfo == if stillMounted && loaded.Some? then loaded.value else old(sessionInfo)
    {
      var saved := storage.GetItem(HANDOFF_KEY);
      if saved.Some? && IsTruthyText(saved.value) {
        var info := Parse(saved.value);
        if info.Success? && stillMounted {
          sessionInfo := info.value;
        }
      }
    }

    /**
     * `startStream`.  Returns the camera stream it acquired, if it got that
     * far.  Without a session it only sets the missing-session error, even
     * while streaming; a start while streaming changes nothing.  Otherwise
     * the page goes loading with no error, a fresh peer connection replaces
     * `pcRef`, and either every step succeeds (the page streams with all
     * tracks added and keeps the backend's `track_id`) or the page ends in
     * error with the acquired stream stopped and released.  The failed
     * start leaves its peer connection open in `pcRef`.
     */
    method StartStream(o: StartOracle) returns (acquired: MediaStream?)
      requires Valid()
      modifies this`pcRef, this`streamRef, this`trackIdRef, this`isStreaming, this`status, this`error, this`requests
      ensures Valid()
      ensures !Truthy(sessionInfo) ==>
                && acquired == null && pcRef == old(pcRef) && streamRef == old(streamRef)
                && trackIdRef == old(trackIdRef) && isStreaming == old(isStreaming) && status == old(status)
                && error == SESSION_MISSING && requests == old(requests)
      ensures Truthy(sessionInfo) && old(isStreaming) ==>
                && acquired == null && pcRef == old(pcRef) && streamRef == old(streamRef)
                && trackIdRef == old(trackIdRef) && isStreaming && status == old(status)
                && error == old(error) && requests == old(requests)
      ensures Truthy(sessionInfo) && !old(isStreaming) ==>
                && pcRef != null && fresh(pcRef) && !pcRef.closed
                && (acquired != null <==> o.media.Succeeds?)
                && (acquired != null ==> fresh(acquired) && |acquired.live| == o.trackCount)
                && requests == old(requests) + OfferRequests(o, sessionInfo)
                && (status == Succeeded <==> StartFailure(o).None?)
      ensures Truthy(sessionInfo) && !old(isStreaming) && StartFailure(o).None? ==>
                && isStreaming && streamRef == acquired && acquired.AllLive()
                && pcRef.senders == o.trackCount && error == ""
                && trackIdRef == Get(ReadJson(o.reply).value, "track_id")
      ensures Truthy(sessionInfo) && !old(isStreaming) && StartFailure(o).Some? ==>
                && !isStreaming && streamRef == null && status == Error
                && error == ErrorText(StartFailure(o).value, START_FAILED)
                && trackIdRef == old(trackIdRef)
                && (acquired != null ==> acquired.Stopped())
    {
      acquired := null;
      if !Truthy(sessionInfo) {
        error := SESSION_MISSING;
        return;
      }
      if isStreaming {
        return;
      }
      acquired := Launch(o, OfferRequests(o, sessionInfo));
    }

    /**
     * `startStream` once both guards have passed: loading with no error, a
     * fresh peer connection, the `try` block, and on a failure the `catch`
     * block.
     */
    method Launch(o: StartOracle, offerRequests: seq<Request>) returns (acquired: MediaStream?)
      requires Valid() && !isStreaming
      requires offerRequests == OfferRequests(o, sessionInfo)
      modifies this`pcRef, this`streamRef, this`trackIdRef, this`isStreaming, this`status, this`error, this`requests
      ensures Valid()
      ensures pcRef != null && fresh(pcRef) && !pcRef.closed
      ensures acquired != null <==> o.media.Succeeds?
      ensures acquired != null ==> fresh(acquired) && |acquired.live| == o.trackCount
      ensures requests == old(requests) + offerRequests
      ensures status == Succeeded <==> StartFailure(o).None?
      ensures StartFailure(o).None? ==>
                && isStreaming && streamRef == acquired && acquired.AllLive()
                && pcRef.senders == o.trackCount && error == ""
                && trackIdRef == Get(ReadJson(o.reply).value, "track_id")
      ensures StartFailure(o).Some? ==>
                && !isStreaming && streamRef == null && status == Error
                && error == ErrorText(StartFailure(o).value, START_FAILED)
                && trackIdRef == old(trackIdRef)
                && (acquired != null ==> acquired.Stopped())
    {
      status := Loading;
      error := "";
      var pc := new PeerConnection();
      pcRef := pc;
      var failure;
      failure, acquired := Negotiate(pc, o, offerRequests);
      assert requests == old(requests) + offerRequests by {
        if !ReachesOffer(o) {
          assert offerRequests == [];
        }
      }
      if failure.Some? {
        Abandon(failure.value);
      }
    }

    /** The `catch` block of `startStream`: the error, then the stream stopped and released. */
    method Abandon(message: string)
      requires pcRef != null && !pcRef.closed
      modifies this`status, this`error, this`streamRef, this`isStreaming, streamRef
      ensures !isStreaming && streamRef == null && status == Error && error == ErrorText(message, START_FAILED)
      ensures old(streamRef) != null ==> old(streamRef).Stopped() && |old(streamRef).live| == old(|streamRef.live|)
      ensures Valid()
    {
      error := ErrorText(message, START_FAILED);
      status := Error;
      isStreaming := false;
      if streamRef != null {
        streamRef.StopTracks();
        streamRef := null;
      }
    }

    /**
     * The `try` block of `startStream` up to `play()`: the camera, the
     * video element, playback.  On a failure the stream acquired so far is
     * still held, for the `catch` block to release.
     */
    method Negotiate(pc: PeerConnection, o: StartOracle, offerRequests: seq<Request>) returns (failure: Option<string>, acquired: MediaStream?)
      requires !pc.closed && pc.senders == 0
      modifies this`streamRef, this`isStreaming, this`requests, this`status, this`trackIdRef, pc
      ensures failure == StartFailure(o)
      ensures !pc.closed
      ensures acquired != null <==> o.media.Succeeds?
      ensures acquired == null ==> streamRef == old(streamRef) && isStreaming == old(isStreaming)
      ensures acquired != null ==>
                fresh(acquired) && |acquired.live| == o.trackCount && acquired.AllLive() && streamRef == acquired && isStreaming
      ensures requests == old(requests) + (if ReachesOffer(o) then offerRequests else [])
      ensures failure.None? ==>
                status == Succeeded && pc.senders == o.trackCount && trackIdRef == Get(ReadJson(o.reply).value, "track_id")
      ensures failure.Some? ==> status == old(status) && trackIdRef == old(trackIdRef)
    {
      if o.media.FailsWith? {
        return Some(o.media.message), null;
      }
      var stream := new MediaStream(o.trackCount);
      acquired := stream;
      streamRef := stream;
      isStreaming := true;
      if !o.videoMounted {
        failure := Some(TYPE_ERROR);
      } else if o.play.FailsWith? {
        failure := Some(o.play.message);
      } else {
        failure := Exchange(pc, stream, o, offerRequests);
      }
    }

    /**
     * The rest of the `try` block: adding the tracks, the offer, the local
     * description and the offer request, which is `offerRequests` for the
     * loaded session.
     */
    method Exchange(pc: PeerConnection, stream: MediaStream, o: StartOracle, offerRequests: seq<Request>) returns (failure: Option<string>)
      requires !pc.closed && pc.senders == 0 && |stream.live| == o.trackCount
      requires o.media.Succeeds? && o.videoMounted && o.play.Succeeds?
      modifies this`requests, this`status, this`trackIdRef, pc
      ensures failure == StartFailure(o)
      ensures !pc.closed && pc.senders == o.trackCount
      ensures requests == old(requests) + (if ReachesOffer(o) then offerRequests else [])
      ensures failure.None? ==> status == Succeeded && trackIdRef == Get(ReadJson(o.reply).value, "track_id")
      ensures failure.Some? ==> status == old(status) && trackIdRef == old(trackIdRef)
    {
      pc.AddTracks(stream);
      if o.offer.Failure? {
        return Some(o.offer.message);
      }
      if o.setLocal.FailsWith? {
        return Some(o.setLocal.message);
      }
      requests := requests + offerRequests;
      failure := ApplyAnswer(o.reply, o.setRemote);
    }

    /** `await res.json()`, `setRemoteDescription` with the body's `sdp` and `type`, then the track id. */
    method ApplyAnswer(reply: Reply, setRemote: Fallible) returns (failure: Option<string>)
      modifies this`status, this`trackIdRef
      ensures failure == AnswerFailure(reply, setRemote)
      ensures failure.None? ==> status == Succeeded && trackIdRef == Get(ReadJson(reply).value, "track_id")
      ensures failure.Some? ==> status == old(status) && trackIdRef == old(trackIdRef)
    {
      var data := ReadJson(reply);
      if data.Failure? {
        failure := Some(data.message);
      } else if Nullish(data.value) {
        failure := Some(TYPE_ERROR);
      } else if setRemote.FailsWith? {
        failure := Some(setRemote.message);
      } else {
        failure := None;
        trackIdRef := Get(data.value, "track_id");
        status := Succeeded;
      }
    }

    /**
     * `stopStream`.  Always stops the stream's tracks, closes the peer
     * connection, drops both and ends idle and not streaming.  Only with a
     * truthy track id does it post the stop request; once its reply parses
     * the page is sent back to the attendance page, and a reply that does
     * not parse sets "Error stopping surveillance".  The track id is kept.
     */
    method StopStream(reply: Reply)
      requires Valid()
      modifies this`streamRef, this`pcRef, this`isStreaming, this`status, this`error,
               this`requests, this`location, streamRef, pcRef
      ensures Valid()
      ensures streamRef == null && pcRef == null && !isStreaming && status == Idle
      ensures old(streamRef) != null ==> old(streamRef).Stopped() && |old(streamRef).live| == old(|streamRef.live|)
      ensures old(pcRef) != null ==> old(pcRef).closed
      ensures !Truthy(trackIdRef) ==> requests == old(requests) && error == old(error) && location == old(location)
      ensures Truthy(trackIdRef) ==>
                requests == old(requests) + [Request("POST", "/surveillance/stop/" + ToJsString(trackIdRef), [], Undefined)]
      ensures Truthy(trackIdRef) && ReadJson(reply).Failure? ==> error == STOP_FAILED && location == old(location)
      ensures Truthy(trackIdRef) && ReadJson(reply).Success? ==> error == old(error) && location == Some("/admin/attendance")
    {
      status := Loading;
      isStreaming := false;
      if streamRef != null {
        streamRef.StopTracks();
        streamRef := null;
      }
      if pcRef != null {
        pcRef.Close();
        pcRef := null;
      }
      if Truthy(trackIdRef) {
        requests := requests + [Request("POST", "/surveillance/stop/" + ToJsString(trackIdRef), [], Undefined)];
        var result := ReadJson(reply);
        if result.Success? {
          location := Some("/admin/attendance");
        } else {
          error := STOP_FAILED;
        }
      }
      status := Idle;
    }
  }
}
