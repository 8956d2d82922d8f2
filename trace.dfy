/** What a run of the form makes observable, in order: every status it sets, every
    conversion it starts, every request it sends and every callback it fires. */
module Trace {
  import opened Wrappers
  import opened Media
  import opened Api
  import opened FormStatus

  datatype Event =
    | StatusSet(status: Status)          // setStatus(status)
    | ConversionStarted(video: File)     // convertVideoToAudio(videoFile)
    | Requested(request: Request)        // api.post(path, body)
    | VideoUploaded(videoId: string)     // props.onVideoUploaded(videoId)

  /** What `pick` sees of one event: its value, or nothing when the event is of another kind. */
  function Picked<T>(e: Event, pick: Event -> Option<T>): seq<T>
  {
    match pick(e)
    case Some(x) => [x]
    case None => []
  }

  /** The events of one kind, in order, as picked out by `pick`. */
  function Observed<T>(t: seq<Event>, pick: Event -> Option<T>): seq<T>
    decreases |t|
  {
    if t == [] then [] else Picked(t[0], pick) + Observed(t[1..], pick)
  }

  lemma ObservedOne<T>(e: Event, pick: Event -> Option<T>)
    ensures Observed([e], pick) == Picked(e, pick)
  {
    assert [e][1..] == [];
  }

  lemma {:induction false} ObservedConcat<T>(a: seq<Event>, b: seq<Event>, pick: Event -> Option<T>)
    ensures Observed(a + b, pick) == Observed(a, pick) + Observed(b, pick)
    decreases |a|
  {
    if a == [] {
      assert a + b == b;
    } else {
      assert (a + b)[0] == a[0] && (a + b)[1..] == a[1..] + b;
      ObservedConcat(a[1..], b, pick);
    }
  }

  function StatusOf(e: Event): Option<Status> { if e.StatusSet? then Some(e.status) else None }
  function ConversionOf(e: Event): Option<File> { if e.ConversionStarted? then Some(e.video) else None }
  function RequestOf(e: Event): Option<Request> { if e.Requested? then Some(e.request) else None }
  function CallbackOf(e: Event): Option<string> { if e.VideoUploaded? then Some(e.videoId) else None }

  /** The values passed to `setStatus`, in order. */
  function Statuses(t: seq<Event>): seq<Status> { Observed(t, StatusOf) }
  /** The videos handed to the conversion, in order. */
  function Conversions(t: seq<Event>): seq<File> { Observed(t, ConversionOf) }
  /** The requests sent to the server, in order. */
  function Requests(t: seq<Event>): seq<Request> { Observed(t, RequestOf) }
  /** The ids passed to `onVideoUploaded`, in order. */
  function Callbacks(t: seq<Event>): seq<string> { Observed(t, CallbackOf) }

  /** The status React holds after the events `t`, starting from `start`: the last value
      passed to `setStatus`, or `start` when there was none. */
  function StatusAfter(start: Status, t: seq<Event>): Status
  {
    var written := Statuses(t);
    if written == [] then start else written[|written| - 1]
  }

  /** Running two stretches of events one after the other is running the first, then the
      second from where the first left the status. */
  lemma StatusAfterConcat(start: Status, a: seq<Event>, b: seq<Event>)
    ensures StatusAfter(start, a + b) == StatusAfter(StatusAfter(start, a), b)
  {
    ObservedConcat(a, b, StatusOf);
  }
}
