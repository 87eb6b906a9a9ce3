/**
 * The camera panel (frontend/src/components/CameraFeed.jsx): the error text
 * recovered from a failed frame request, the friendly message shown for it,
 * the object-URL lifecycle of the frame poller, and what the panel renders.
 *
 * The browser's `URL.createObjectURL` is an input: each success brings a
 * fresh object URL. Fetches that complete after teardown are still
 * delivered, as the fixed-rate interval and the un-cancelled `await` allow.
 */
module CameraFeed {
  import opened Wrappers
  import opened Strings

  const DefaultFeedPath := "/camera/latest-frame"
  const DefaultPollMs := 1000
  const NoFrameYetMessage := "No camera frame yet. Start vision service and wait a few seconds for first annotated frame."
  const MissingDirectoryMessage := "Frame directory not found. Ensure vision saves frames to ./vision/frames and backend VISION_FRAME_DIR is correct."
  const NotFoundMessage := "No frame endpoint data yet (404). Check vision service is running and producing frames."
  const UnavailableMessage := "Camera feed unavailable right now."
  const NoFrameNeedle := "no camera frame available"
  const MissingDirectoryNeedle := "frame directory not found"

  /** The `detail` and `error` fields of a JSON error body, "" when absent or falsy. */
  datatype ErrorBody = ErrorBody(detail: string, error: string)

  /**
   * The data of a failed response: not a blob, or a blob whose text could
   * be read (`text` is None when reading threw) and parsed (`parsed` is the
   * outcome of `JSON.parse` on that text, None when it threw).
   */
  datatype ErrorData =
    | NotBlob
    | Blob(text: Option<string>, parsed: Option<ErrorBody>)

  /** `parseBlobErrorDetail`: the body's detail, else its error, else "". */
  function ParseBlobErrorDetail(data: ErrorData): (r: string)
    ensures data.NotBlob? ==> r == ""
    ensures data.Blob? && (data.text.None? || data.text.value == "" || data.parsed.None?) ==> r == ""
    ensures data.Blob? && data.text.Some? && data.text.value != "" && data.parsed.Some? ==>
              r == (if data.parsed.value.detail != "" then data.parsed.value.detail else data.parsed.value.error)
  {
    match data
    case NotBlob => ""
    case Blob(text, parsed) =>
      if text.None? || text.value == "" then ""
      else match parsed
        case None => ""
        case Some(body) => if body.detail != "" then body.detail else body.error
  }

  /** The detail of a failure: the blob's detail, else the client's user message, else "". */
  function FailureDetail(data: ErrorData, userMessage: string): (r: string)
    ensures ParseBlobErrorDetail(data) != "" ==> r == ParseBlobErrorDetail(data)
    ensures ParseBlobErrorDetail(data) == "" ==> r == userMessage
  {
    var blobDetail := ParseBlobErrorDetail(data);
    if blobDetail != "" then blobDetail else userMessage
  }

  /** `toFriendlyMessage`; `status` is 0 when the failure carried no response. */
  function ToFriendlyMessage(detail: string, status: int): (m: string)
    ensures m != ""
    ensures Contains(Lower(detail), NoFrameNeedle) ==> m == NoFrameYetMessage
    ensures !Contains(Lower(detail), NoFrameNeedle) && Contains(Lower(detail), MissingDirectoryNeedle) ==>
              m == MissingDirectoryMessage
    ensures !Contains(Lower(detail), NoFrameNeedle) && !Contains(Lower(detail), MissingDirectoryNeedle) ==>
              m == (if status == 404 then NotFoundMessage else if detail != "" then detail else UnavailableMessage)
  {
    var normalized := Lower(detail);
    if Contains(normalized, NoFrameNeedle) then NoFrameYetMessage
    else if Contains(normalized, MissingDirectoryNeedle) then MissingDirectoryMessage
    else if status == 404 then NotFoundMessage
    else if detail != "" then detail
    else UnavailableMessage
  }

  lemma LowerStartsWith(s: string, head: string, needle: string)
    requires StartsWith(s, head) && Lower(head) == needle
    ensures Contains(Lower(s), needle)
  {
    assert Lower(s)[..|needle|] == needle;
    StartsWithContains(Lower(s), needle);
  }

  lemma NoFrameDetailMatches()
    ensures Contains(Lower("No camera frame available yet"), NoFrameNeedle)
  {
    var head := "No camera frame available";
    assert forall i | 0 <= i < |head| :: Lower(head)[i] == LowerChar(head[i]);
    assert Lower(head) == "no camera frame available";
    LowerStartsWith("No camera frame available yet", head, NoFrameNeedle);
  }

  lemma MissingDirectoryLowered()
    ensures Lower("Frame directory not found") == MissingDirectoryNeedle
  {
    var detail := "Frame directory not found";
    assert forall i | 0 <= i < |detail| :: Lower(detail)[i] == LowerChar(detail[i]);
    assert Lower(detail) == "frame directory not found";
  }

  lemma MissingDirectoryDetailMatches()
    ensures Contains(Lower("Frame directory not found"), MissingDirectoryNeedle)
    ensures !Contains(Lower("Frame directory not found"), NoFrameNeedle)
  {
    MissingDirectoryLowered();
    var lowered := MissingDirectoryNeedle;
    ContainsLonger(lowered[1..], NoFrameNeedle);
    assert lowered[..|NoFrameNeedle|] != NoFrameNeedle by {
      assert lowered[0] != NoFrameNeedle[0];
    }
    StartsWithContains(lowered, MissingDirectoryNeedle);
  }

  /** The backend's two 404 details map to the first two friendly messages. */
  lemma BackendDetailsRecognised(status: int)
    ensures ToFriendlyMessage("No camera frame available yet", status) == NoFrameYetMessage
    ensures ToFriendlyMessage("Frame directory not found", status) == MissingDirectoryMessage
  {
    NoFrameDetailMatches();
    MissingDirectoryDetailMatches();
  }

  /** Without a detail, a 404 reads as "no data yet" and anything else as unavailable. */
  lemma NoDetailMessages(status: int)
    ensures ToFriendlyMessage("", status) == if status == 404 then NotFoundMessage else UnavailableMessage
  {
    ContainsLonger(Lower(""), NoFrameNeedle);
    ContainsLonger(Lower(""), MissingDirectoryNeedle);
  }

  /** What the frame area shows, and the error line under it. */
  datatype PanelView = PanelView(image: Option<string>, placeholder: string, errorLine: Option<string>)

  /** The panel: the frame when there is one, else a loading, error or empty text. */
  function Render(imageUrl: string, error: string, loading: bool): (v: PanelView)
    ensures imageUrl != "" <==> v.image == Some(imageUrl)
    ensures imageUrl == "" ==>
              v.placeholder == (if loading then "Loading camera feed..." else if error != "" then error else "No frame available.")
    ensures v.errorLine.Some? <==> error != "" && !loading
    ensures v.errorLine.Some? ==> v.errorLine.value == error
  {
    PanelView(
      if imageUrl != "" then Some(imageUrl) else None,
      if imageUrl != "" then "" else if loading then "Loading camera feed..." else if error != "" then error else "No frame available.",
      if error != "" && !loading then Some(error) else None)
  }

  /**
   * The poller's local state and the panel's state, with the object URLs the
   * poller created and those not yet revoked.
   */
  class FramePoller {
    var imageUrl: string
    var error: string
    var loading: bool
    var activeObjectUrl: string
    var intervalActive: bool
    var tornDown: bool
    var created: set<string>
    var outstanding: set<string>
    var successes: nat
    var revokes: nat

    /** While mounted, the one outstanding URL is the one shown, and every success but the first revoked one. */
    predicate Valid()
      reads this
    {
      "" !in created && outstanding <= created
      && (activeObjectUrl == "" || activeObjectUrl in created)
      && (!tornDown ==>
            intervalActive
            && outstanding == (if activeObjectUrl == "" then {} else {activeObjectUrl})
            && imageUrl == activeObjectUrl
            && (successes == 0 <==> activeObjectUrl == "")
            && revokes == (if successes == 0 then 0 else successes - 1))
    }

    /** No object URL outlives the component. */
    predicate NoLeak()
      reads this
    {
      tornDown ==> outstanding == {}
    }

    /** The effect runs: nothing fetched yet, the interval started. */
    constructor ()
      ensures Valid() && NoLeak()
      ensures imageUrl == "" && error == "" && loading && !tornDown
      ensures created == {} && outstanding == {} && successes == 0 && revokes == 0
    {
      imageUrl := "";
      error := "";
      loading := true;
      activeObjectUrl := "";
      intervalActive := true;
      tornDown := false;
      created := {};
      outstanding := {};
      successes := 0;
      revokes := 0;
    }

    /**
     * A fetch succeeded and the browser made `nextUrl` for its blob: the
     * previous URL is revoked and the new one shown, as `fetchFrame` does,
     * whether or not the component was torn down in between.
     */
    method FetchSucceeded(nextUrl: string)
      requires Valid()
      requires nextUrl != "" && nextUrl !in created
      modifies this
      ensures Valid()
      ensures activeObjectUrl == nextUrl && imageUrl == nextUrl && error == "" && !loading
      ensures created == old(created) + {nextUrl}
      ensures outstanding == old(outstanding) - {old(activeObjectUrl)} + {nextUrl}
      ensures successes == old(successes) + 1
      ensures revokes == old(revokes) + (if old(activeObjectUrl) != "" then 1 else 0)
      ensures tornDown == old(tornDown) && intervalActive == old(intervalActive)
    {
      created := created + {nextUrl};
      outstanding := outstanding + {nextUrl};
      successes := successes + 1;
      if activeObjectUrl != "" {
        outstanding := outstanding - {activeObjectUrl};
        revokes := revokes + 1;
      }
      activeObjectUrl := nextUrl;
      imageUrl := nextUrl;
      error := "";
      loading := false;
    }

    /**
     * `FetchSucceeded` with the disposal check the cleanup evidently relies
     * on: after teardown the new URL is revoked at once and nothing is shown.
     */
    method FetchSucceededChecked(nextUrl: string)
      requires Valid() && NoLeak()
      requires nextUrl != "" && nextUrl !in created
      modifies this
      ensures Valid() && NoLeak()
      ensures created == old(created) + {nextUrl}
      ensures !old(tornDown) ==>
                activeObjectUrl == nextUrl && imageUrl == nextUrl && error == "" && !loading
                && outstanding == old(outstanding) - {old(activeObjectUrl)} + {nextUrl}
                && successes == old(successes) + 1
                && revokes == old(revokes) + (if old(activeObjectUrl) != "" then 1 else 0)
      ensures old(tornDown) ==>
                outstanding == {} && revokes == old(revokes) + 1 && successes == old(successes) + 1
                && imageUrl == old(imageUrl) && error == old(error) && loading == old(loading)
      ensures tornDown == old(tornDown) && intervalActive == old(intervalActive)
    {
      if tornDown {
        created := created + {nextUrl};
        successes := successes + 1;
        revokes := revokes + 1;
        return;
      }
      FetchSucceeded(nextUrl);
    }

    /** A fetch failed: the error text is replaced, the shown frame kept. */
    method FetchFailed(status: int, data: ErrorData, userMessage: string)
      requires Valid()
      modifies this
      ensures Valid() && (old(NoLeak()) ==> NoLeak())
      ensures error == ToFriendlyMessage(FailureDetail(data, userMessage), status)
      ensures !loading && imageUrl == old(imageUrl) && activeObjectUrl == old(activeObjectUrl)
      ensures created == old(created) && outstanding == old(outstanding)
      ensures successes == old(successes) && revokes == old(revokes)
      ensures tornDown == old(tornDown) && intervalActive == old(intervalActive)
    {
      error := ToFriendlyMessage(FailureDetail(data, userMessage), status);
      loading := false;
    }

    /** The effect's cleanup: stop the interval and revoke the outstanding URL. */
    method Teardown()
      requires Valid() && !tornDown
      modifies this
      ensures Valid() && NoLeak()
      ensures tornDown && !intervalActive
      ensures outstanding == {}
      ensures revokes == old(revokes) + (if old(activeObjectUrl) != "" then 1 else 0)
      ensures activeObjectUrl == old(activeObjectUrl) && imageUrl == old(imageUrl)
      ensures error == old(error) && loading == old(loading)
      ensures created == old(created) && successes == old(successes)
    {
      intervalActive := false;
      if activeObjectUrl != "" {
        outstanding := outstanding - {activeObjectUrl};
        revokes := revokes + 1;
      }
      tornDown := true;
    }

    function View(): PanelView
      reads this
    {
      Render(imageUrl, error, loading)
    }
  }

  /** While mounted at most one object URL is outstanding. */
  lemma AtMostOneOutstanding(p: FramePoller)
    requires p.Valid() && !p.tornDown
    ensures |p.outstanding| <= 1
  {
  }

  /** As written: a fetch that completes after teardown leaves its object URL unrevoked. */
  method LateSuccessLeaks() returns (leaked: set<string>)
    ensures leaked == {"blob:late"}
  {
    var p := new FramePoller();
    p.FetchSucceeded("blob:first");
    p.Teardown();
    p.FetchSucceeded("blob:late");
    leaked := p.outstanding;
  }

  /** With the disposal check, the same run leaves nothing outstanding. */
  method LateSuccessChecked() returns (leaked: set<string>)
    ensures leaked == {}
  {
    var p := new FramePoller();
    p.FetchSucceededChecked("blob:first");
    p.Teardown();
    p.FetchSucceededChecked("blob:late");
    leaked := p.outstanding;
  }

  /** A failed fetch keeps showing the last frame. */
  method FailureKeepsFrame(status: int, data: ErrorData, userMessage: string) returns (shown: Option<string>)
    ensures shown == Some("blob:frame")
  {
    var p := new FramePoller();
    p.FetchSucceeded("blob:frame");
    p.FetchFailed(status, data, userMessage);
    shown := p.View().image;
  }
}
