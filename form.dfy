/** The VideoInputForm component itself: its state lives in fields that the two handlers
    update step by step, and every `setStatus` and outgoing call is recorded in a ghost
    trace so that the handlers can be checked against the state machine of `StateMachine`. */
module Form {
  import opened Wrappers
  import opened Media
  import opened Conversion
  import opened Api
  import opened FormStatus
  import opened Trace
  import opened Pipeline
  import opened StateMachine

  class VideoInputForm {
    var videoFile: Option<File>
    var status: Status
    /** Everything the component has made observable, in order. */
    ghost var trace: seq<Event>

    ghost function State(): FormState
      reads this
    {
      FormState(videoFile, status, trace)
    }

    /** The status React holds is always the last value passed to `setStatus`. */
    ghost predicate Valid()
      reads this
    {
      status == StatusAfter(Waiting, trace)
    }

    constructor ()
      ensures Valid() && State() == Initial
    {
      videoFile := None;
      status := Waiting;
      trace := [];
    }

    /** handleFileSelected: `files` is the input's file list, absent when there is none. */
    method HandleFileSelected(files: Option<seq<File>>)
      requires Valid()
      modifies this`videoFile
      ensures Valid()
      ensures State() == FileSelected(old(State()), files)
    {
      if files.Some? {
        var selectedFile := if |files.value| > 0 then Some(files.value[0]) else None;
        videoFile := selectedFile;
      }
    }

    /** setStatus: whatever came before, the value just written is the status. */
    method SetStatus(next: Status)
      modifies this`status, this`trace
      ensures Valid()
      ensures status == next && trace == old(trace) + [StatusSet(next)]
    {
      ObservedConcat(trace, [StatusSet(next)], StatusOf);
      ObservedOne(StatusSet(next), StatusOf);
      status := next;
      trace := trace + [StatusSet(next)];
    }

    /** handleUploadVideo: `promptValue` is the textarea's value at the moment of the
        submit; each stage is awaited in turn, and a rejected stage ends the handler. */
    method HandleUploadVideo(env: Env, promptValue: Option<string>)
      requires Valid()
      modifies this`status, this`trace
      ensures Valid()
      ensures State() == UploadVideo(old(State()), env, promptValue)
    {
      var prompt := promptValue;
      if videoFile.None? {
        return;
      }
      var video := videoFile.value;
      ghost var before := trace;
      ghost var start := status;

      SetStatus(Converting);
      trace := trace + [ConversionStarted(video)];
      var audioFile := ConvertVideoToAudio(env.engine, video);
      if audioFile.Err? {
        StopsConverting(env, video, prompt, before);
        assert StatusAfter(start, Run(env, video, prompt)) == Converting by {
          ConversionFailureStalls(env, video, prompt, start);
        }
        StatusAfterConcat(Waiting, before, Run(env, video, prompt));
        return;
      }

      var data := UploadRequest(audioFile.value);
      SetStatus(Uploading);
      trace := trace + [Requested(data)];
      var videoId := VideoIdOf(env.client(data));
      if videoId.Err? {
        StopsUploading(env, video, prompt, before);
        assert StatusAfter(start, Run(env, video, prompt)) == Uploading by {
          UploadFailureStalls(env, video, prompt, start);
        }
        StatusAfterConcat(Waiting, before, Run(env, video, prompt));
        return;
      }

      SetStatus(Generating);
      var transcription := TranscriptionRequest(videoId.value, prompt);
      trace := trace + [Requested(transcription)];
      var answer := env.client(transcription);
      if answer.Err? {
        StopsGenerating(env, video, prompt, before);
        assert StatusAfter(start, Run(env, video, prompt)) == Generating by {
          TranscriptionFailureStalls(env, video, prompt, start);
        }
        StatusAfterConcat(Waiting, before, Run(env, video, prompt));
        return;
      }

      SetStatus(Success);
      trace := trace + [VideoUploaded(videoId.value)];
      StopsAtSuccess(env, video, prompt, before);
      assert StatusAfter(start, Run(env, video, prompt)) == Success by {
        SuccessfulRun(env, video, prompt, start);
      }
      StatusAfterConcat(Waiting, before, Run(env, video, prompt));
    }
  }
}
