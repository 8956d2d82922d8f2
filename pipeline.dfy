/** handleUploadVideo after its guard: one run of the pipeline on a selected video, as the
    sequence of events it produces. Each awaited stage either resolves or rejects; a
    rejection ends the run on the spot (nothing catches it), so the later stages, their
    status updates and the callback never happen. */
module Pipeline {
  import opened Wrappers
  import opened Media
  import opened Conversion
  import opened Api
  import opened FormStatus
  import opened Trace

  /** The outside world one run talks to: the shared ffmpeg engine and the HTTP client. */
  datatype Env = Env(engine: Engine, client: Client)

  /** Stage one: the audio extracted from the video. */
  function Converted(env: Env, video: File): Result<File, EngineError>
  {
    ConvertVideoToAudio(env.engine, video)
  }

  /** Stage two: the id of the video the upload created. */
  function Uploaded(env: Env, audio: File): Result<string, RequestError>
  {
    VideoIdOf(env.client(UploadRequest(audio)))
  }

  /** Stage three: the transcription request's answer. */
  function Transcribed(env: Env, videoId: string, prompt: Option<string>): Result<Response, RequestError>
  {
    env.client(TranscriptionRequest(videoId, prompt))
  }

  /** The events of one run on `video` with the prompt read at the start of the submit. */
  function Run(env: Env, video: File, prompt: Option<string>): (t: seq<Event>)
    ensures |t| >= 2 && t[0] == StatusSet(Converting) && t[1] == ConversionStarted(video)
    ensures forall i :: 0 <= i < |t| ==> t[i] != StatusSet(Waiting)
  {
    [StatusSet(Converting), ConversionStarted(video)] +
    match Converted(env, video)
    case Err(_) => []
    case Ok(audio) =>
      [StatusSet(Uploading), Requested(UploadRequest(audio))] +
      match Uploaded(env, audio)
      case Err(_) => []
      case Ok(videoId) =>
        [StatusSet(Generating), Requested(TranscriptionRequest(videoId, prompt))] +
        match Transcribed(env, videoId, prompt)
        case Err(_) => []
        case Ok(_) => [StatusSet(Success), VideoUploaded(videoId)]
  }

  /** The status the label should show while an event happens: a status update is its own
      value, the conversion belongs to `converting`, the upload to `uploading`, the
      transcription request to `generating`, and the callback to `success`. */
  function StageOf(e: Event): Status
  {
    match e
    case StatusSet(s) => s
    case ConversionStarted(_) => Converting
    case Requested(r) => if r.path == VideosPath then Uploading else Generating
    case VideoUploaded(_) => Success
  }

  /** Every stage of the run resolves. */
  predicate Succeeds(env: Env, video: File, prompt: Option<string>)
  {
    && Converted(env, video).Ok?
    && Uploaded(env, Converted(env, video).value).Ok?
    && Transcribed(env, Uploaded(env, Converted(env, video).value).value, prompt).Ok?
  }

  /** The events of a run, written out for each stage at which it can stop. */
  lemma RunUnfolded(env: Env, video: File, prompt: Option<string>)
    ensures var started := [StatusSet(Converting), ConversionStarted(video)];
            && (Converted(env, video).Err? ==> Run(env, video, prompt) == started)
            && (Converted(env, video).Ok? ==>
                  var audio := Converted(env, video).value;
                  var uploading := started + [StatusSet(Uploading), Requested(UploadRequest(audio))];
                  && (Uploaded(env, audio).Err? ==> Run(env, video, prompt) == uploading)
                  && (Uploaded(env, audio).Ok? ==>
                        var videoId := Uploaded(env, audio).value;
                        var generating := uploading + [StatusSet(Generating), Requested(TranscriptionRequest(videoId, prompt))];
                        && (Transcribed(env, videoId, prompt).Err? ==> Run(env, video, prompt) == generating)
                        && (Transcribed(env, videoId, prompt).Ok? ==>
                              Run(env, video, prompt) == generating + [StatusSet(Success), VideoUploaded(videoId)])))
  {
  }

  /** The events a handler has produced when its run stops after the conversion
      rejects, after the upload fails, after the transcription request rejects, or at the
      end, are the events of `Run` appended to what came before. */
  lemma StopsConverting(env: Env, video: File, prompt: Option<string>, before: seq<Event>)
    requires Converted(env, video).Err?
    ensures before + [StatusSet(Converting)] + [ConversionStarted(video)] == before + Run(env, video, prompt)
  {
    RunUnfolded(env, video, prompt);
  }

  lemma StopsUploading(env: Env, video: File, prompt: Option<string>, before: seq<Event>)
    requires Converted(env, video).Ok? && Uploaded(env, Converted(env, video).value).Err?
    ensures before + [StatusSet(Converting)] + [ConversionStarted(video)]
              + [StatusSet(Uploading)] + [Requested(UploadRequest(Converted(env, video).value))]
            == before + Run(env, video, prompt)
  {
    RunUnfolded(env, video, prompt);
  }

  lemma StopsGenerating(env: Env, video: File, prompt: Option<string>, before: seq<Event>)
    requires Converted(env, video).Ok? && Uploaded(env, Converted(env, video).value).Ok?
    requires Transcribed(env, Uploaded(env, Converted(env, video).value).value, prompt).Err?
    ensures var audio := Converted(env, video).value;
            before + [StatusSet(Converting)] + [ConversionStarted(video)]
              + [StatusSet(Uploading)] + [Requested(UploadRequest(audio))]
              + [StatusSet(Generating)] + [Requested(TranscriptionRequest(Uploaded(env, audio).value, prompt))]
            == before + Run(env, video, prompt)
  {
    RunUnfolded(env, video, prompt);
  }

  lemma StopsAtSuccess(env: Env, video: File, prompt: Option<string>, before: seq<Event>)
    requires Succeeds(env, video, prompt)
    ensures var audio := Converted(env, video).value;
            var videoId := Uploaded(env, audio).value;
            before + [StatusSet(Converting)] + [ConversionStarted(video)]
              + [StatusSet(Uploading)] + [Requested(UploadRequest(audio))]
              + [StatusSet(Generating)] + [Requested(TranscriptionRequest(videoId, prompt))]
              + [StatusSet(Success)] + [VideoUploaded(videoId)]
            == before + Run(env, video, prompt)
  {
    RunUnfolded(env, video, prompt);
  }

  /** What `pick` sees of a two-event step followed by the rest of a run. */
  lemma ObservedStep<T>(e1: Event, e2: Event, rest: seq<Event>, pick: Event -> Option<T>)
    ensures Observed([e1, e2] + rest, pick) == Picked(e1, pick) + Picked(e2, pick) + Observed(rest, pick)
  {
    ObservedConcat([e1, e2], rest, pick);
    ObservedConcat([e1], [e2], pick);
    assert [e1] + [e2] == [e1, e2];
    ObservedOne(e1, pick);
    ObservedOne(e2, pick);
  }

  /** What each projection sees of a two-event step followed by the rest of a run. */
  lemma StepObservations(e1: Event, e2: Event, rest: seq<Event>)
    ensures var t := [e1, e2] + rest;
            && Statuses(t) == Picked(e1, StatusOf) + Picked(e2, StatusOf) + Statuses(rest)
            && Conversions(t) == Picked(e1, ConversionOf) + Picked(e2, ConversionOf) + Conversions(rest)
            && Requests(t) == Picked(e1, RequestOf) + Picked(e2, RequestOf) + Requests(rest)
            && Callbacks(t) == Picked(e1, CallbackOf) + Picked(e2, CallbackOf) + Callbacks(rest)
  {
    ObservedStep(e1, e2, rest, StatusOf);
    ObservedStep(e1, e2, rest, ConversionOf);
    ObservedStep(e1, e2, rest, RequestOf);
    ObservedStep(e1, e2, rest, CallbackOf);
  }

  /** The conversion rejects: the run stops at `converting`, before any request. */
  lemma ConversionFailureStalls(env: Env, video: File, prompt: Option<string>, start: Status)
    requires Converted(env, video).Err?
    ensures var t := Run(env, video, prompt);
            Statuses(t) == [Converting] && Conversions(t) == [video] && Requests(t) == [] &&
            Callbacks(t) == [] && StatusAfter(start, t) == Converting
  {
    StepObservations(StatusSet(Converting), ConversionStarted(video), []);
  }

  /** The upload rejects (or its answer has no video): the run stops at `uploading`
      after the one upload request; no transcription is requested. */
  lemma UploadFailureStalls(env: Env, video: File, prompt: Option<string>, start: Status)
    requires Converted(env, video).Ok?
    requires Uploaded(env, Converted(env, video).value).Err?
    ensures var t := Run(env, video, prompt);
            Statuses(t) == [Converting, Uploading] && Conversions(t) == [video] &&
            Requests(t) == [UploadRequest(Converted(env, video).value)] &&
            Callbacks(t) == [] && StatusAfter(start, t) == Uploading
  {
    var audio := Converted(env, video).value;
    var later := [StatusSet(Uploading), Requested(UploadRequest(audio))] + [];
    assert Run(env, video, prompt) == [StatusSet(Converting), ConversionStarted(video)] + later;
    StepObservations(StatusSet(Converting), ConversionStarted(video), later);
    StepObservations(StatusSet(Uploading), Requested(UploadRequest(audio)), []);
  }

  /** The transcription request rejects: the run stops at `generating` and the callback
      never fires. */
  lemma TranscriptionFailureStalls(env: Env, video: File, prompt: Option<string>, start: Status)
    requires Converted(env, video).Ok?
    requires Uploaded(env, Converted(env, video).value).Ok?
    requires Transcribed(env, Uploaded(env, Converted(env, video).value).value, prompt).Err?
    ensures var audio := Converted(env, video).value;
            var t := Run(env, video, prompt);
            Statuses(t) == [Converting, Uploading, Generating] && Conversions(t) == [video] &&
            Requests(t) == [UploadRequest(audio), TranscriptionRequest(Uploaded(env, audio).value, prompt)] &&
            Callbacks(t) == [] && StatusAfter(start, t) == Generating
  {
    var audio := Converted(env, video).value;
    var videoId := Uploaded(env, audio).value;
    var third := [StatusSet(Generating), Requested(TranscriptionRequest(videoId, prompt))] + [];
    var later := [StatusSet(Uploading), Requested(UploadRequest(audio))] + third;
    assert Run(env, video, prompt) == [StatusSet(Converting), ConversionStarted(video)] + later;
    StepObservations(StatusSet(Converting), ConversionStarted(video), later);
    StepObservations(StatusSet(Uploading), Requested(UploadRequest(audio)), third);
    StepObservations(StatusSet(Generating), Requested(TranscriptionRequest(videoId, prompt)), []);
  }

  /** The events of a run in which every stage resolved, with the two requests it sent
      and the id it got. */
  lemma CompleteRunObservations(video: File, upload: Request, transcription: Request, videoId: string)
    ensures var t := [StatusSet(Converting), ConversionStarted(video)] +
                     ([StatusSet(Uploading), Requested(upload)] +
                      ([StatusSet(Generating), Requested(transcription)] +
                       [StatusSet(Success), VideoUploaded(videoId)]));
            && Statuses(t) == Forward && Conversions(t) == [video]
            && Requests(t) == [upload, transcription]
            && Callbacks(t) == [videoId]
  {
    var last := [StatusSet(Success), VideoUploaded(videoId)];
    var third := [StatusSet(Generating), Requested(transcription)] + last;
    var later := [StatusSet(Uploading), Requested(upload)] + third;
    StepObservations(StatusSet(Converting), ConversionStarted(video), later);
    StepObservations(StatusSet(Uploading), Requested(upload), third);
    StepObservations(StatusSet(Generating), Requested(transcription), last);
    assert last == [StatusSet(Success), VideoUploaded(videoId)] + [];
    StepObservations(StatusSet(Success), VideoUploaded(videoId), []);
  }

  /** Every stage resolves: the status goes through `converting`, `uploading`, `generating`
      and `success` once each and in that order; the transcription is requested for the id
      the upload returned, with the prompt read at the start; and the callback fires once,
      with that id, as the last thing the run does, right after the status became `success`. */
  lemma SuccessfulRun(env: Env, video: File, prompt: Option<string>, start: Status)
    requires Succeeds(env, video, prompt)
    ensures var audio := Converted(env, video).value;
            var videoId := Uploaded(env, audio).value;
            var t := Run(env, video, prompt);
            && Statuses(t) == Forward && Conversions(t) == [video]
            && Requests(t) == [UploadRequest(audio), TranscriptionRequest(videoId, prompt)]
            && Callbacks(t) == [videoId]
            && |t| >= 2 && t[|t| - 2] == StatusSet(Success) && t[|t| - 1] == VideoUploaded(videoId)
            && StatusAfter(start, t) == Success
  {
    var audio := Converted(env, video).value;
    var videoId := Uploaded(env, audio).value;
    var t := [StatusSet(Converting), ConversionStarted(video)] +
             ([StatusSet(Uploading), Requested(UploadRequest(audio))] +
              ([StatusSet(Generating), Requested(TranscriptionRequest(videoId, prompt))] +
               [StatusSet(Success), VideoUploaded(videoId)]));
    assert Run(env, video, prompt) == t;
    CompleteRunObservations(video, UploadRequest(audio), TranscriptionRequest(videoId, prompt), videoId);
  }

  /** Whatever the stages do, a run sets a non-empty prefix of `converting`, `uploading`,
      `generating`, `success` (so it never skips a stage, never goes back and never sets
      `waiting`), reaches `success` exactly when every stage resolves, converts the video
      once, and fires the callback at most once, exactly when it succeeds. */
  lemma RunMovesForward(env: Env, video: File, prompt: Option<string>, start: Status)
    ensures var t := Run(env, video, prompt);
            var written := Statuses(t);
            && 1 <= |written| <= |Forward| && written == Forward[..|written|]
            && (written == Forward <==> Succeeds(env, video, prompt))
            && StatusAfter(start, t) != Waiting
            && (StatusAfter(start, t) == Success <==> Succeeds(env, video, prompt))
            && Conversions(t) == [video]
            && |Callbacks(t)| <= 1 && (Callbacks(t) != [] <==> Succeeds(env, video, prompt))
  {
    if Converted(env, video).Err? {
      ConversionFailureStalls(env, video, prompt, start);
    } else if Uploaded(env, Converted(env, video).value).Err? {
      UploadFailureStalls(env, video, prompt, start);
    } else if !Succeeds(env, video, prompt) {
      TranscriptionFailureStalls(env, video, prompt, start);
    } else {
      SuccessfulRun(env, video, prompt, start);
    }
  }

  /** Every stage is announced before it starts: each conversion, request and callback of a
      run comes right after the `setStatus` of its own stage, so the label names the stage
      in flight, and a stage that rejects leaves the status set just before it. */
  lemma StatusPrecedesEachStage(env: Env, video: File, prompt: Option<string>)
    ensures var t := Run(env, video, prompt);
            forall i :: 0 <= i < |t| && !t[i].StatusSet? ==> i > 0 && t[i - 1] == StatusSet(StageOf(t[i]))
  {
    RunUnfolded(env, video, prompt);
  }
}
