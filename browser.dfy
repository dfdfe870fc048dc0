/**
 * The browser objects the two capture pages hold: camera streams, peer
 * connections and local storage.  Media and WebRTC are reduced to the state
 * the pages look at (which tracks are live, whether a connection is closed,
 * how many tracks were added); what the browser does with them is an input.
 */
module Browser {
  import opened Wrappers
  import opened JsValues
  import Http

  /** The outcome of one awaited browser call: it resolves, or rejects with a message. */
  datatype Fallible = Succeeds | FailsWith(message: string)

  /** `err.message || fallback`, as a page shows a rejected call. */
  function ErrorText(m: string, fallback: string): (e: string)
    requires fallback != ""
    ensures e != ""
    ensures m != "" ==> e == m
    ensures m == "" ==> e == fallback
  {
    if m == "" then fallback else m
  }

  /** A camera stream from `getUserMedia`: one flag per track, true while the track is live. */
  class MediaStream {
    var live: seq<bool>

    constructor (trackCount: nat)
      ensures |live| == trackCount && AllLive()
    {
      live := seq(trackCount, _ => true);
    }

    ghost predicate AllLive()
      reads this
    {
      forall i :: 0 <= i < |live| ==> live[i]
    }

    ghost predicate Stopped()
      reads this
    {
      forall i :: 0 <= i < |live| ==> !live[i]
    }

    /** `stream.getTracks().forEach((t) => t.stop())`. */
    method StopTracks()
      modifies this
      ensures |live| == |old(live)| && Stopped()
    {
      var i := 0;
      while i < |live|
        invariant 0 <= i <= |live| && |live| == |old(live)|
        invariant forall j :: 0 <= j < i ==> !live[j]
      {
        live := live[i := false];
        i := i + 1;
      }
    }
  }

  /** An `RTCPeerConnection`: whether it is closed and how many tracks it sends. */
  class PeerConnection {
    var closed: bool
    var senders: nat

    constructor ()
      ensures !closed && senders == 0
    {
      closed := false;
      senders := 0;
    }

    /** `stream.getTracks().forEach((track) => pc.addTrack(track, stream))`. */
    method AddTracks(stream: MediaStream)
      requires !closed
      modifies this
      ensures !closed && senders == old(senders) + |stream.live|
    {
      var i := 0;
      while i < |stream.live|
        invariant 0 <= i <= |stream.live|
        invariant senders == old(senders) + i && !closed
      {
        senders := senders + 1;
        i := i + 1;
      }
    }

    method Close()
      modifies this
      ensures closed && senders == old(senders)
    {
      closed := true;
    }
  }

  /** The SDP offer `createOffer` produces. */
  datatype Offer = Offer(sdp: string, kind: string)

  /**
   * How each awaited step of a start goes: the camera, the video element
   * being on screen after the wait, `play()`, `createOffer`,
   * `setLocalDescription`, the offer request, `setRemoteDescription`.
   */
  datatype StartOracle = StartOracle(
    media: Fallible,
    trackCount: nat,
    videoMounted: bool,
    play: Fallible,
    offer: Result<Offer>,
    setLocal: Fallible,
    reply: Http.Reply,
    setRemote: Fallible)

  /** The steps before the offer request all succeed. */
  predicate ReachesOffer(o: StartOracle)
  {
    o.media.Succeeds? && o.videoMounted && o.play.Succeeds? && o.offer.Success? && o.setLocal.Succeeds?
  }

  // ---------------------------------------------------------------------------
  // Local storage
  // ---------------------------------------------------------------------------

  /**
   * A stored item: the JSON text of a value, or a text that is not JSON.  The
   * only such text the console writes is "undefined", which is what
   * `setItem(key, JSON.stringify(undefined))` stores.
   */
  datatype Stored = JsonText(value: Value) | RawText(text: string)

  /** `setItem(key, JSON.stringify(v))`; `JsonText(w)` stands for the JSON text of `w`. */
  function Serialize(v: Value): (s: Stored)
    ensures s.RawText? <==> v.Undefined?
  {
    if v.Undefined? then RawText("undefined") else JsonText(Jsonify(v))
  }

  /** `JSON.parse(text)`: the JSON text of `w` parses back to `w`; any other text throws. */
  function Parse(s: Stored): (r: Result<Value>)
    ensures s.JsonText? ==> r == Success(s.value)
    ensures s.RawText? ==> r.Failure?
  {
    match s
    case JsonText(v) => Success(v)
    case RawText(_) => Failure("SyntaxError")
  }

  /** `if (saved)`: a JSON text is never the empty string. */
  predicate IsTruthyText(s: Stored)
  {
    s.JsonText? || s.text != ""
  }

  /**
   * Writing a value and reading it back gives the value as JSON carries it,
   * which is the value itself for JSON data; writing undefined gives back a
   * text that does not parse.
   */
  lemma StoredRoundTrip(v: Value)
    ensures IsTruthyText(Serialize(v))
    ensures !v.Undefined? ==> Parse(Serialize(v)) == Success(Jsonify(v)) && IsJsonData(Jsonify(v))
    ensures IsJsonData(v) ==> Parse(Serialize(v)) == Success(v)
    ensures v.Undefined? ==> Parse(Serialize(v)).Failure?
  {
    JsonifyIsJsonData(v);
    if IsJsonData(v) {
      JsonifyKeepsJsonData(v);
    }
  }

  /** The item through which the attendance page hands a finished session to the surveillance page. */
  const HANDOFF_KEY: string := "surv_session_info"

  /** `window.localStorage`, keyed by item name. */
  class LocalStorage {
    var items: map<string, Stored>

    constructor ()
      ensures items == map[]
    {
      items := map[];
    }

    /** `getItem(key)`: the stored item, or `null` (None). */
    function GetItem(key: string): (r: Option<Stored>)
      reads this
      ensures r.Some? <==> key in items
      ensures r.Some? ==> r.value == items[key]
    {
      if key in items then Some(items[key]) else None
    }

    method SetItem(key: string, s: Stored)
      modifies this
      ensures items == old(items)[key := s]
    {
      items := items[key := s];
    }
  }
}
