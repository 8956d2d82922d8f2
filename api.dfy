/** The two requests the form sends through the axios client, and the one field of a
    response it reads. The server is not part of this model: a `Client` maps each
    request to a response or a rejection. */
module Api {
  import opened Wrappers
  import opened Media

  const VideosPath: string := "/videos"
  /** The form field carrying the audio in the upload's multipart body. */
  const FileField: string := "file"

  datatype Body =
    | Multipart(field: string, file: File)
    /** `{ prompt }`: the prompt text, or no `prompt` key when the value was undefined. */
    | Json(prompt: Option<string>)

  datatype Request = Post(path: string, body: Body)

  datatype VideoRecord = VideoRecord(id: string)
  /** `response.data`: the upload's answer carries the created video. */
  datatype Response = Response(video: Option<VideoRecord>)

  datatype RequestError =
    | Rejected      // the request's promise rejected (network or HTTP error)
    | MissingVideo  // `response.data.video` was absent, so reading `.id` threw

  type Client = Request -> Result<Response, RequestError>

  /** `POST /videos` with the audio file under the field `file`. */
  function UploadRequest(audio: File): (r: Request)
    ensures r.path == VideosPath && r.body == Multipart(FileField, audio)
  {
    Post(VideosPath, Multipart(FileField, audio))
  }

  /** The path `/videos/${videoId}/transcription`. */
  function TranscriptionPath(videoId: string): (p: string)
    ensures |p| == |videoId| + 22
    ensures p[..8] == "/videos/" && p[|p| - 14..] == "/transcription"
    ensures p[8..|p| - 14] == videoId
  {
    "/videos/" + videoId + "/transcription"
  }

  /** `POST /videos/${videoId}/transcription` with body `{ prompt }`. */
  function TranscriptionRequest(videoId: string, prompt: Option<string>): (r: Request)
    ensures r.path == TranscriptionPath(videoId)
    ensures r.body == Json(prompt)
    ensures r.path != VideosPath
  {
    Post(TranscriptionPath(videoId), Json(prompt))
  }

  /** `response.data.video.id`: the id of the created video, or the error that stops the run. */
  function VideoIdOf(response: Result<Response, RequestError>): (r: Result<string, RequestError>)
    ensures r.Ok? <==> response.Ok? && response.value.video.Some?
    ensures r.Ok? ==> r.value == response.value.video.value.id
  {
    match response
    case Err(e) => Err(e)
    case Ok(Response(None)) => Err(MissingVideo)
    case Ok(Response(Some(video))) => Ok(video.id)
  }

  /** The transcription path names one video only: different ids give different paths. */
  lemma TranscriptionPathNamesVideo(a: string, b: string)
    requires TranscriptionPath(a) == TranscriptionPath(b)
    ensures a == b
  {
    var p := TranscriptionPath(a);
    assert a == p[8..|p| - 14];
    assert b == TranscriptionPath(b)[8..|p| - 14];
  }
}
