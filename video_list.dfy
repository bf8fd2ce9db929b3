/**
 * The video list (videoList.jsx): loading the catalogue, accepting the two
 * response shapes the server may send, prepending an uploaded video, and
 * choosing what to render. `fetch` is not modelled: each operation receives
 * the response, or the message of the error it threw.
 */
module VideoCatalogue {
  import opened Wrappers
  import opened JsText

  datatype Video = Video(id: string, title: string, description: string)

  /** The decoded JSON body: an array of videos, an object whose `videos`
      field is an array, `null`, or anything else */
  datatype Body = ArrayBody(items: seq<Video>) | WrappedBody(videos: seq<Video>) | NullBody | OtherBody

  /** A response with its status and body, or the message of a rejected
      `fetch` or of a body that is not JSON */
  datatype Response<T> = Reply(status: nat, body: T) | Thrown(message: string)

  const HttpErrorPrefix := "HTTP error! Status: "
  const UploadErrorPrefix := "Upload failed! Status: "
  const InvalidFormat := "Invalid API response format"
  /** What reading `videos` of `null` throws, in V8's wording */
  const NullBodyMessage := "Cannot read properties of null (reading 'videos')"
  const ErrorViewPrefix := "Error loading videos: "

  predicate StatusOk(status: nat) {
    200 <= status <= 299
  }

  function HttpError(status: nat): (message: string)
    ensures |message| > |HttpErrorPrefix| && message[..|HttpErrorPrefix|] == HttpErrorPrefix
  {
    HttpErrorPrefix + NatToString(status)
  }

  /** The status can be read back from the HTTP error message */
  lemma HttpErrorReadsBack(status: nat, other: nat)
    ensures var digits := HttpError(status)[|HttpErrorPrefix|..];
      AllDigits(digits) && ParseDigits(digits) == status
    ensures HttpError(status) == HttpError(other) <==> status == other
  {
    assert HttpError(status)[|HttpErrorPrefix|..] == NatToString(status);
    ParseNatToString(status);
    if HttpError(status) == HttpError(other) {
      assert HttpError(other)[|HttpErrorPrefix|..] == NatToString(other);
      ParseNatToString(other);
    }
  }

  /** `fetchVideos` up to `setVideos`: the list a response yields, or the
      message of the error it leads to */
  function LoadedVideos(r: Response<Body>): (res: Result<seq<Video>>)
    ensures res.Ok? <==> r.Reply? && StatusOk(r.status) && (r.body.ArrayBody? || r.body.WrappedBody?)
    ensures res.Ok? && r.body.ArrayBody? ==> res.value == r.body.items
    ensures res.Ok? && r.body.WrappedBody? ==> res.value == r.body.videos
    ensures r.Reply? && !StatusOk(r.status) ==> res == Err(HttpError(r.status))
    ensures r.Reply? && StatusOk(r.status) && r.body.OtherBody? ==> res == Err(InvalidFormat)
    ensures r.Reply? && StatusOk(r.status) && r.body.NullBody? ==> res == Err(NullBodyMessage)
    ensures r.Thrown? ==> res == Err(r.message)
  {
    match r
    case Thrown(message) => Err(message)
    case Reply(status, body) =>
      if !StatusOk(status) then Err(HttpError(status))
      else match body
        case ArrayBody(items) => Ok(items)
        case WrappedBody(videos) => Ok(videos)
        case NullBody => Err(NullBodyMessage)
        case OtherBody => Err(InvalidFormat)
  }

  /** What the component renders */
  datatype Screen = LoadingScreen | ErrorScreen(text: string) | EmptyScreen | ListScreen(items: seq<Video>)

  /** Loading first, then a (truthy) error, then the empty notice, then the list */
  function View(loading: bool, error: Option<string>, videos: seq<Video>): (s: Screen)
    ensures s.LoadingScreen? <==> loading
    ensures s.ErrorScreen? <==> !loading && error.Some? && error.value != ""
    ensures s.ErrorScreen? ==> s.text == ErrorViewPrefix + error.value
    ensures s.EmptyScreen? <==> !loading && (error.None? || error.value == "") && videos == []
    ensures s.ListScreen? ==> s.items == videos && videos != []
  {
    if loading then LoadingScreen
    else if error.Some? && error.value != "" then ErrorScreen(ErrorViewPrefix + error.value)
    else if videos == [] then EmptyScreen
    else ListScreen(videos)
  }

  class VideoListView {
    var videos: seq<Video>
    var loading: bool
    var error: Option<string>

    constructor ()
      ensures videos == [] && loading && error == None
    {
      videos, loading, error := [], true, None;
    }

    /** `fetchVideos`: store the list or the error; loading ends either way */
    method FetchVideos(response: Response<Body>)
      modifies this
      ensures !loading
      ensures LoadedVideos(response).Ok? ==> videos == LoadedVideos(response).value && error == old(error)
      ensures LoadedVideos(response).Err? ==>
        videos == old(videos) && error == Some(LoadedVideos(response).error)
    {
      var loaded := LoadedVideos(response);
      match loaded {
        case Ok(list) => videos := list;
        case Err(message) => error := Some(message);
      }
      loading := false;
    }

    /** `handleVideoUpload`: an accepted upload goes to the front of the list */
    method HandleUpload(response: Response<Video>)
      modifies this
      ensures loading == old(loading)
      ensures response.Reply? && StatusOk(response.status) ==>
        videos == [response.body] + old(videos) && error == old(error)
      ensures response.Reply? && !StatusOk(response.status) ==>
        videos == old(videos) && error == Some(UploadErrorPrefix + NatToString(response.status))
      ensures response.Thrown? ==> videos == old(videos) && error == Some(response.message)
    {
      match response {
        case Thrown(message) =>
          error := Some(message);
        case Reply(status, video) =>
          if StatusOk(status) {
            videos := [video] + videos;
          } else {
            error := Some(UploadErrorPrefix + NatToString(status));
          }
      }
    }
  }

  /** A response the component itself rejects (a bad status, a body of the
      wrong shape) gives a non-empty message, so the error screen is shown
      whatever list is held; an error with an empty message is falsy and
      renders like no error */
  lemma FailedLoadShowsError(response: Response<Body>, videos: seq<Video>)
    requires response.Reply? && LoadedVideos(response).Err?
    ensures LoadedVideos(response).error != ""
    ensures View(false, Some(LoadedVideos(response).error), videos).ErrorScreen?
    ensures View(false, Some(""), videos) == View(false, None, videos)
  {
  }
}
