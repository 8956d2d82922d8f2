/** The component as a state machine over its two pieces of state, the selected file and
    the status, together with everything it has made observable so far. A user session is
    a sequence of file selections and form submissions; the browser only delivers a
    submission while the submit button is enabled. */
module StateMachine {
  import opened Wrappers
  import opened Media
  import opened FormStatus
  import opened Trace
  import opened Pipeline

  datatype FormState = FormState(videoFile: Option<File>, status: Status, trace: seq<Event>)

  /** The state the component mounts with: no file, `waiting`, nothing observed yet. */
  const Initial: FormState := FormState(None, Waiting, [])

  /** The file `handleFileSelected` keeps: `files[0]` when the input reports a file list
      (undefined, so no file, when that list is empty), the current file otherwise. */
  function SelectedFile(current: Option<File>, files: Option<seq<File>>): (r: Option<File>)
    ensures files.None? ==> r == current
    ensures files.Some? ==> (r.Some? <==> |files.value| > 0)
    ensures files.Some? && r.Some? ==> r.value == files.value[0]
  {
    match files
    case None => current
    case Some(list) => if |list| > 0 then Some(list[0]) else None
  }

  /** handleFileSelected. */
  function FileSelected(s: FormState, files: Option<seq<File>>): (r: FormState)
    ensures r.status == s.status && r.trace == s.trace
    ensures r.videoFile == SelectedFile(s.videoFile, files)
  {
    s.(videoFile := SelectedFile(s.videoFile, files))
  }

  /** previewUrl: an object URL for the selected file, if there is one. */
  function PreviewUrl(videoFile: Option<File>): (u: Option<ObjectUrl>)
    ensures u.Some? <==> videoFile.Some?
    ensures u.Some? ==> u.value.target == videoFile.value
  {
    match videoFile
    case None => None
    case Some(f) => Some(BlobUrl(f))
  }

  /** handleUploadVideo, with `prompt` the textarea's value read at its start: nothing
      without a file; otherwise one run, whose last `setStatus` is the new status. */
  function UploadVideo(s: FormState, env: Env, prompt: Option<string>): (r: FormState)
    ensures r.videoFile == s.videoFile
    ensures s.videoFile.None? ==> r == s
    ensures s.videoFile.Some? ==> r.status != Waiting
    ensures |s.trace| <= |r.trace| && r.trace[..|s.trace|] == s.trace
  {
    match s.videoFile
    case None => s
    case Some(video) =>
      var run := Run(env, video, prompt);
      RunMovesForward(env, video, prompt, s.status);
      assert (s.trace + run)[..|s.trace|] == s.trace;
      s.(status := StatusAfter(s.status, run), trace := s.trace + run)
  }

  datatype Action =
    | SelectFiles(files: Option<seq<File>>)
    | SubmitForm(env: Env, prompt: Option<string>)

  /** One user action. A submission reaches the handler only while the submit button is
      enabled; with the button disabled the form cannot be submitted. */
  function Dispatch(s: FormState, a: Action): (r: FormState)
    ensures s.status != Waiting ==> r.status == s.status && r.trace == s.trace
    ensures a.SubmitForm? && s.status != Waiting ==> r == s
    ensures a.SubmitForm? && s.status == Waiting ==> r == UploadVideo(s, a.env, a.prompt)
    ensures a.SelectFiles? ==> r == FileSelected(s, a.files)
  {
    match a
    case SelectFiles(files) => FileSelected(s, files)
    case SubmitForm(env, prompt) => if ControlsDisabled(s.status) then s else UploadVideo(s, env, prompt)
  }

  function Session(s: FormState, actions: seq<Action>): FormState
    decreases |actions|
  {
    if actions == [] then s else Session(Dispatch(s, actions[0]), actions[1..])
  }

  /** Selecting the same list twice is the same as selecting it once, and afterwards a
      preview is shown exactly when the list had a file, or, with no list, when a file was
      already selected. */
  lemma FileSelection(s: FormState, files: Option<seq<File>>)
    ensures FileSelected(FileSelected(s, files), files) == FileSelected(s, files)
    ensures PreviewUrl(FileSelected(s, files).videoFile).Some? <==>
              if files.None? then s.videoFile.Some? else |files.value| > 0
  {
  }

  /** A submission made with no file selected changes nothing, whether the button was
      enabled or not: no status update, no conversion, no request, no callback. */
  lemma SubmitWithoutFileIsNoOp(s: FormState, env: Env, prompt: Option<string>)
    requires s.videoFile.None?
    ensures Dispatch(s, SubmitForm(env, prompt)) == s
  {
  }

  /** Submitting with a file runs the pipeline on that file once and leaves `waiting` for
      good: the controls are disabled afterwards, whichever stage failed. */
  lemma SubmitStartsRun(s: FormState, env: Env, prompt: Option<string>)
    requires s.videoFile.Some?
    ensures var r := UploadVideo(s, env, prompt);
            && r.videoFile == s.videoFile
            && r.trace == s.trace + Run(env, s.videoFile.value, prompt)
            && Conversions(r.trace) == Conversions(s.trace) + [s.videoFile.value]
            && ControlsDisabled(r.status)
  {
    RunMovesForward(env, s.videoFile.value, prompt, s.status);
    ObservedConcat(s.trace, Run(env, s.videoFile.value, prompt), ConversionOf);
  }

  /** `data-success` turns on after a submit with a file exactly when every stage of its
      run resolved. */
  lemma SuccessShownExactlyOnSuccess(s: FormState, env: Env, prompt: Option<string>)
    requires s.videoFile.Some?
    ensures DataSuccess(UploadVideo(s, env, prompt).status) <==> Succeeds(env, s.videoFile.value, prompt)
  {
    RunMovesForward(env, s.videoFile.value, prompt, s.status);
  }

  /** The status is the last one written; the statuses written so far are a prefix of the
      forward order; at most one conversion and one callback have happened, the callback
      only with the status at `success`. */
  ghost predicate Consistent(s: FormState)
  {
    var written := Statuses(s.trace);
    && s.status == StatusAfter(Waiting, s.trace)
    && (s.trace != [] ==> written != [])
    && |written| <= |Forward| && written == Forward[..|written|]
    && |Conversions(s.trace)| <= 1 && |Callbacks(s.trace)| <= 1
    && (Callbacks(s.trace) != [] ==> s.status == Success)
  }

  /** In a consistent state the status is `waiting` exactly when nothing has happened yet. */
  lemma WaitingMeansNothingYet(s: FormState)
    requires Consistent(s)
    ensures s.status == Waiting <==> s.trace == []
  {
    var written := Statuses(s.trace);
    if s.trace != [] {
      assert written[|written| - 1] in Forward;
    }
  }

  lemma DispatchKeepsConsistent(s: FormState, a: Action)
    requires Consistent(s)
    ensures Consistent(Dispatch(s, a))
  {
    if a.SubmitForm? && !ControlsDisabled(s.status) && s.videoFile.Some? {
      var run := Run(a.env, s.videoFile.value, a.prompt);
      WaitingMeansNothingYet(s);
      assert s.trace + run == run;
      RunMovesForward(a.env, s.videoFile.value, a.prompt, s.status);
      RunMovesForward(a.env, s.videoFile.value, a.prompt, Waiting);
    }
  }

  lemma {:induction false} SessionKeepsConsistent(s: FormState, actions: seq<Action>)
    requires Consistent(s)
    ensures Consistent(Session(s, actions))
    decreases |actions|
  {
    if actions != [] {
      DispatchKeepsConsistent(s, actions[0]);
      SessionKeepsConsistent(Dispatch(s, actions[0]), actions[1..]);
    }
  }

  /** From mounting, choosing a video and submitting runs the pipeline once on that video
      with the prompt given: the form is not dead. */
  lemma SelectThenSubmitRuns(video: File, env: Env, prompt: Option<string>)
    ensures var s := Session(Initial, [SelectFiles(Some([video])), SubmitForm(env, prompt)]);
            && s.videoFile == Some(video)
            && s.trace == Run(env, video, prompt)
            && s.status == StatusAfter(Waiting, Run(env, video, prompt))
  {
    var actions := [SelectFiles(Some([video])), SubmitForm(env, prompt)];
    var selected := Dispatch(Initial, actions[0]);
    assert selected == FormState(Some(video), Waiting, []);
    assert Session(Initial, actions) == Session(selected, actions[1..]);
    assert actions[1..][1..] == [];
    assert Session(selected, actions[1..]) == Session(Dispatch(selected, actions[1]), []);
  }

  /** Once a run has started, no later action can change the status or start anything:
      the submit button stays disabled, so no second submission is ever delivered. */
  lemma {:induction false} LockedOnceStarted(s: FormState, actions: seq<Action>)
    requires s.status != Waiting
    ensures Session(s, actions).status == s.status
    ensures Session(s, actions).trace == s.trace
    decreases |actions|
  {
    if actions != [] {
      LockedOnceStarted(Dispatch(s, actions[0]), actions[1..]);
    }
  }

  /** Over a whole session from mounting, whatever the user does and whatever the stages
      do: the statuses ever shown are a prefix of `converting`, `uploading`, `generating`,
      `success`; the status is never set back to `waiting`; the pipeline runs at most once;
      the callback fires at most once, and only when the status is `success`. */
  lemma SessionRunsAtMostOnce(actions: seq<Action>)
    ensures var s := Session(Initial, actions);
            var written := Statuses(s.trace);
            && |written| <= |Forward| && written == Forward[..|written|]
            && (s.status == Waiting <==> s.trace == [])
            && |Conversions(s.trace)| <= 1
            && |Callbacks(s.trace)| <= 1
            && (Callbacks(s.trace) != [] ==> s.status == Success)
  {
    SessionKeepsConsistent(Initial, actions);
    WaitingMeansNothingYet(Session(Initial, actions));
  }
}
