# upload.ai video input form, modelled in Dafny

This project models the upload pipeline of the `VideoInputForm` component of upload.ai's
front end (`src/components/VideoInputForm.tsx`). The user selects a video, optionally writes
a transcription prompt, and submits. The component then runs three stages. First it
extracts the audio in the browser with ffmpeg. Then it uploads the audio with
`POST /videos`. Last it requests a transcription with `POST /videos/{id}/transcription`.
Around the stages it moves its status through `waiting`, `converting`, `uploading`,
`generating` and `success`, and it finally hands the video id to its parent through
`onVideoUploaded`. The prompt textarea, the submit button and its label are rendered from
the status alone.

Modules, leaves first:

- `Wrappers`: `Option` and `Result`.
- `Media`: files (name, MIME type, bytes) and object URLs.
- `Conversion`: `convertVideoToAudio`. The engine is opaque: whether it loads, the files
  already in its virtual file system, and a transcoder from a file system and an argument
  list to an exit code and a new file system. The constants are the component's own:
  `input.mp4`, the nine-element `exec` argument list, `output.mp3`, and the result
  `audio.mp3` of type `audio/mpeg`.
- `Api`: the two requests, the `response.data.video.id` read, and the transcription path.
  The server is a function from request to response or rejection.
- `FormStatus`: the status type, `statusMessages`, the `disabled` and `data-success`
  expressions, and the button label.
- `Trace`: the observable events of the component, in order. These are status updates,
  conversions started, requests sent and callbacks fired. `Trace` also gives the status
  React holds after a sequence of them, which is the last value passed to `setStatus`.
- `Pipeline`: one run of the handler after its guard, as the events it produces, with the
  three stages as calls that resolve or reject.
- `StateMachine`: the component's state (file, status, events so far), the two handlers as
  functions on it, and user sessions. In a session a submission reaches the handler only
  while the submit button is enabled.
- `Form`: the component as a class. `videoFile` and `status` are fields, and a ghost
  `trace` records what it did. The two handlers are methods proved equal to the
  `StateMachine` functions, and they keep the invariant that the status is the last value
  written.

Three things the code does that a reader may not expect:

- The submit button is disabled only by the status (`VideoInputForm.tsx:144`), not by the
  absence of a file. Submitting without a file reaches the handler, which returns at its
  guard.
- A stage that rejects is not caught. The status stays at the value set before that stage.
  The controls stay disabled. Nothing ever sets the status back to `waiting`. There is no
  failure state.
- Nothing checks that the extracted audio is non-empty, or that `exec` exited with code 0.
  The file read back from `output.mp3` is uploaded whatever the exit code was.

## Model

| member | source | states |
|---|---|---|
| Conversion.ConvertVideoToAudio | src/components/VideoInputForm.tsx:46-75 | when the engine loads and `exec` (run on the engine's files with the video written as `input.mp4`, with the fixed argument list) resolves leaving `output.mp3`, the result is that file's bytes as `audio.mp3` of type `audio/mpeg`; a rejected `exec` passes its error on; an engine that does not load fails the conversion; any success has the fixed name and type and came from a resolved `exec` |
| Conversion.CommandWiring | src/components/VideoInputForm.tsx:49-65 | the transcoder sees the video's bytes under the name the command reads (`-i input.mp4`), and the command's last argument is the name read back |
| Conversion.ConversionReturnsOutput | src/components/VideoInputForm.tsx:67-74 | the audio uploaded is exactly what the transcoder left at `output.mp3` |
| Conversion.ExitCodeIgnored | src/components/VideoInputForm.tsx:55-67 | the conversion's result does not depend on `exec`'s exit code, only on whether it rejected and on the files it left |
| Api.UploadRequest | src/components/VideoInputForm.tsx:90-96 | the upload is a `POST /videos` whose multipart body carries the audio file under the field `file` |
| Api.TranscriptionRequest | src/components/VideoInputForm.tsx:102-104 | the transcription request goes to the transcription path of the given video id, its body is the prompt passed through unmodified (possibly absent), and it never goes to the upload's path |
| Api.VideoIdOf | src/components/VideoInputForm.tsx:96-98 | the id is available exactly when the upload resolved with a video in its answer, and it is that video's id |
| Api.TranscriptionPath | src/components/VideoInputForm.tsx:102 | the path is `/videos/`, then the video id unchanged, then `/transcription`; the id can be read back from the path |
| Api.TranscriptionPathNamesVideo | src/components/VideoInputForm.tsx:102 | two different video ids never give the same transcription path |
| FormStatus.StatusMessage | src/components/VideoInputForm.tsx:13-18 | the message table has an entry for every status except `waiting` |
| FormStatus.ControlsDisabled | src/components/VideoInputForm.tsx:133-145 | the prompt textarea and the submit button are enabled exactly while the status is `waiting` |
| FormStatus.DataSuccess | src/components/VideoInputForm.tsx:143 | `data-success` is true exactly in `success` |
| FormStatus.ButtonLabel | src/components/VideoInputForm.tsx:148-153 | the label is "Load video" exactly in `waiting`, and otherwise the status's message |
| FormStatus.LabelIdentifiesStatus | src/components/VideoInputForm.tsx:13-18 | different statuses show different labels |
| Pipeline.Run | src/components/VideoInputForm.tsx:86-108 | every run begins by setting `converting` and then starting the conversion, and no event of a run sets the status to `waiting` |
| Pipeline.StatusPrecedesEachStage | src/components/VideoInputForm.tsx:86-108 | in every run, the conversion, each request and the callback come right after the status update of their own stage (`converting` before the conversion, `uploading` before `POST /videos`, `generating` before the transcription request, `success` before the callback), so a rejected stage leaves the status set just before it |
| Pipeline.ConversionFailureStalls | src/components/VideoInputForm.tsx:86-88 | a failed conversion leaves the status at `converting`, with no request sent and no callback |
| Pipeline.UploadFailureStalls | src/components/VideoInputForm.tsx:94-98 | a failed upload, or an answer without a video, leaves the status at `uploading` after exactly the upload request; no transcription request, no callback |
| Pipeline.TranscriptionFailureStalls | src/components/VideoInputForm.tsx:100-104 | a failed transcription request leaves the status at `generating`; the requests were the upload and the transcription for the uploaded id with the prompt; no callback |
| Pipeline.SuccessfulRun | src/components/VideoInputForm.tsx:86-108 | a fully successful run sets `converting`, `uploading`, `generating`, `success` once each in that order; requests the transcription for the id the upload returned with the prompt read at the start; fires the callback once with that id, as its last event, right after `success` |
| Pipeline.RunMovesForward | src/components/VideoInputForm.tsx:86-108 | any run sets a non-empty prefix of the forward order (no skipped stage, no step back, never `waiting`), ends in `success` exactly when every stage resolves, converts the video once, and fires the callback at most once, exactly on success |
| StateMachine.PreviewUrl | src/components/VideoInputForm.tsx:39-43 | a preview URL exists exactly when a file is selected, and it refers to that file |
| StateMachine.SelectedFile | src/components/VideoInputForm.tsx:29-37 | with no file list the file is kept; with a list, a file is kept exactly when the list is non-empty, and it is the first one |
| StateMachine.FileSelected | src/components/VideoInputForm.tsx:29-37 | selection changes only the file, never the status or what has happened |
| StateMachine.FileSelection | src/components/VideoInputForm.tsx:29-43 | selecting the same list again changes nothing more; afterwards a preview is shown exactly when the list had a file, or, with no list, when a file was already selected |
| StateMachine.SubmitWithoutFileIsNoOp | src/components/VideoInputForm.tsx:80-84 | with no file, a submission delivered through the form changes nothing, whether the button was enabled or not: no status update, conversion, request or callback |
| StateMachine.UploadVideo | src/components/VideoInputForm.tsx:77-109 | the handler keeps the file; with no file it changes nothing; with a file it always leaves `waiting`; it only appends to what has happened |
| StateMachine.SubmitStartsRun | src/components/VideoInputForm.tsx:82-108 | with a file, a submit runs the pipeline once on that file, keeps the file, and leaves the controls disabled whatever happened |
| StateMachine.SuccessShownExactlyOnSuccess | src/components/VideoInputForm.tsx:143 | after a submit with a file, `data-success` is on exactly when every stage of the run resolved |
| StateMachine.Dispatch | src/components/VideoInputForm.tsx:112-144 | the disabled button gates the form's submit: in `waiting` a submission reaches `handleUploadVideo`; once out of `waiting`, a submission changes nothing and no action changes the status or adds events; a file selection is always `handleFileSelected` |
| StateMachine.WaitingMeansNothingYet | src/components/VideoInputForm.tsx:25-27 | in every reachable state the status is `waiting` exactly when nothing has happened yet |
| StateMachine.DispatchKeepsConsistent | src/components/VideoInputForm.tsx:142-145 | every user action delivered through the form keeps the session invariant: the status is the last one written, the statuses written are a prefix of the forward order, at most one conversion and one callback, the callback only in `success` |
| StateMachine.SelectThenSubmitRuns | src/components/VideoInputForm.tsx:112-144 | from mounting, selecting one video and submitting runs the pipeline once on that video with the given prompt, and the status is the last one that run wrote |
| StateMachine.LockedOnceStarted | src/components/VideoInputForm.tsx:135-144 | once the status has left `waiting`, no further action changes the status or produces any event; no second submission is delivered |
| StateMachine.SessionRunsAtMostOnce | src/components/VideoInputForm.tsx:77-145 | over any session from mounting, the statuses shown are a prefix of the forward order, `waiting` holds exactly until a run starts, the pipeline runs at most once, and the callback fires at most once and only with the status at `success` |
| Form.VideoInputForm.constructor | src/components/VideoInputForm.tsx:25-27 | the component mounts with no file, in `waiting`, having done nothing |
| Form.VideoInputForm.HandleFileSelected | src/components/VideoInputForm.tsx:29-37 | the handler's new state is the state machine's file selection applied to the old state, and the status stays the last value written |
| Form.VideoInputForm.SetStatus | src/components/VideoInputForm.tsx:27 | a status update sets the status and records it, so the status is the last value written whatever came before |
| Form.VideoInputForm.HandleUploadVideo | src/components/VideoInputForm.tsx:77-109 | the handler's new state is the state machine's submit applied to the old state, and the status stays the last value written |

## Left out

- `src/App.tsx` is static layout with no state or handlers, and `src/components/PromptSelect.tsx` is a one-off `GET /prompts` rendered into a select. Neither is part of this model.
- `getFFmpeg` and its lazy, shared loading are not part of this model. The engine is a parameter of each conversion: whether it loads, the files already in it, and its transcoder.
- `fetchFile` and `writeFile` are taken to succeed. The video's bytes are what gets written.
- The progress logger (`VideoInputForm.tsx:51-53`) writes rounded floating-point progress to the console, and it has no effect on the pipeline.
- React's hook semantics and the asynchronous interleaving of awaits are not modelled. Each submit is one atomic run. A file selected while a run is in flight does not affect that run (the handler captured the earlier file). The model does not show that selection happening between the run's stages.
- `FormData`, `Blob`, `File` construction and `URL.createObjectURL` are modelled only by their results. The object URLs are never revoked, by the source or the model.
- An upload answer whose `video` has no `id` field would thread `undefined` on to the transcription path. The model treats the id as present whenever the video is.
- `event.preventDefault()`, the `accept="video/mp4"` hint (the browser does not enforce it) and styling are not modelled.
- Errors are not surfaced anywhere, because the component does not catch them. A rejected stage only ends the run.
