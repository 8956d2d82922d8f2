/** convertVideoToAudio: the client-side audio extraction driven through the ffmpeg engine.
    The engine itself (loading, the transcoder) is opaque; what the component fixes is
    the file names, the command line and the shape of the file it hands on. */
module Conversion {
  import opened Wrappers
  import opened Media

  /** Name under which the video is written into the engine's virtual file system. */
  const InputName: string := "input.mp4"
  /** Name the transcoder writes and the component reads back. */
  const OutputName: string := "output.mp3"
  /** Name and type of the audio file handed to the upload. */
  const AudioName: string := "audio.mp3"
  const AudioMime: string := "audio/mpeg"

  /** The argument list given to `ffmpeg.exec`: read the input, keep only the audio
      stream, re-encode it with libmp3lame at 20 kbit/s, write the output. */
  const ExecArgs: seq<string> :=
    ["-i", "input.mp4", "-map", "0:a", "-b:a", "20k", "-acodec", "libmp3lame", "output.mp3"]

  /** The engine's virtual file system. */
  type Fs = map<string, Bytes>

  datatype EngineError = LoadFailed | ExecFailed | ReadFailed

  /** What `exec` resolves with: the exit code and the file system afterwards. */
  datatype ExecOutcome = ExecOutcome(exitCode: int, after: Fs)

  /** The ffmpeg instance `getFFmpeg` resolves with, as far as one conversion sees it:
      whether loading succeeds, the files already in its file system (the instance is
      shared, so earlier runs may have left files there), and the transcoder. */
  datatype Engine = Engine(loads: bool, files: Fs, exec: (Fs, seq<string>) -> Result<ExecOutcome, EngineError>)

  /** The file system `exec` runs on: the engine's files with the video written as input. */
  function Staged(engine: Engine, video: File): Fs
  {
    engine.files[InputName := video.bytes]
  }

  /** Load the engine, write the video as `input.mp4`, run `ExecArgs`, read `output.mp3`
      back and wrap it as `audio.mp3` of type `audio/mpeg`. Each awaited step may reject,
      which ends the conversion; the exit code of `exec` is not looked at. */
  function ConvertVideoToAudio(engine: Engine, video: File): (r: Result<File, EngineError>)
    ensures r.Ok? ==> r.value.name == AudioName && r.value.mime == AudioMime
    ensures !engine.loads ==> r == Err(LoadFailed)
    ensures r.Ok? ==> engine.exec(Staged(engine, video), ExecArgs).Ok?
    ensures engine.loads && engine.exec(Staged(engine, video), ExecArgs).Ok? &&
            OutputName in engine.exec(Staged(engine, video), ExecArgs).value.after ==>
              r == Ok(File(AudioName, AudioMime, engine.exec(Staged(engine, video), ExecArgs).value.after[OutputName]))
    ensures engine.loads && engine.exec(Staged(engine, video), ExecArgs).Err? ==>
              r == Err(engine.exec(Staged(engine, video), ExecArgs).error)
  {
    if !engine.loads then Err(LoadFailed)
    else
      match engine.exec(Staged(engine, video), ExecArgs)
      case Err(e) => Err(e)
      case Ok(outcome) =>
        if OutputName in outcome.after then Ok(File(AudioName, AudioMime, outcome.after[OutputName]))
        else Err(ReadFailed)
  }

  /** The transcoder is given the video's bytes under the very name the command reads,
      and the component reads back the very name the command writes. */
  lemma CommandWiring(engine: Engine, video: File)
    ensures ExecArgs[0] == "-i" && Staged(engine, video)[ExecArgs[1]] == video.bytes
    ensures ExecArgs[|ExecArgs| - 1] == OutputName
  {
  }

  /** A successful conversion returns exactly the bytes the transcoder left at `output.mp3`. */
  lemma ConversionReturnsOutput(engine: Engine, video: File)
    requires ConvertVideoToAudio(engine, video).Ok?
    ensures var out := engine.exec(Staged(engine, video), ExecArgs).value.after;
            OutputName in out && ConvertVideoToAudio(engine, video).value.bytes == out[OutputName]
  {
  }

  /** Two engines whose transcoders agree on the resulting files give the same conversion,
      whatever exit codes they report: a failing exit code does not stop the pipeline. */
  lemma ExitCodeIgnored(e1: Engine, e2: Engine, video: File)
    requires e1.loads == e2.loads && Staged(e1, video) == Staged(e2, video)
    requires e1.exec(Staged(e1, video), ExecArgs).Ok? == e2.exec(Staged(e2, video), ExecArgs).Ok?
    requires e1.exec(Staged(e1, video), ExecArgs).Err? ==>
               e1.exec(Staged(e1, video), ExecArgs) == e2.exec(Staged(e2, video), ExecArgs)
    requires e1.exec(Staged(e1, video), ExecArgs).Ok? ==>
               e1.exec(Staged(e1, video), ExecArgs).value.after == e2.exec(Staged(e2, video), ExecArgs).value.after
    ensures ConvertVideoToAudio(e1, video) == ConvertVideoToAudio(e2, video)
  {
  }
}
