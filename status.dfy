/** The form's status and everything the form renders from it alone. */
module FormStatus {
  import opened Wrappers

  datatype Status = Waiting | Converting | Uploading | Generating | Success

  /** The order in which a run moves through the statuses. */
  const Forward: seq<Status> := [Converting, Uploading, Generating, Success]

  /** `statusMessages[status]`: the table has an entry for every status except `waiting`. */
  function StatusMessage(s: Status): (m: Option<string>)
    ensures m.Some? <==> s != Waiting
  {
    match s
    case Waiting => None
    case Converting => Some("Converting...")
    case Uploading => Some("Uploading...")
    case Generating => Some("Generating...")
    case Success => Some("Success!")
  }

  /** `disabled={status !== 'waiting'}`, shared by the prompt textarea and the submit button. */
  function ControlsDisabled(s: Status): (d: bool)
    ensures !d <==> s == Waiting
  {
    s != Waiting
  }

  /** `data-success={status === 'success'}`. */
  function DataSuccess(s: Status): (b: bool)
    ensures b <==> s == Success
  {
    s == Success
  }

  /** The text of the submit button: "Load video" while waiting, the status message otherwise. */
  function ButtonLabel(s: Status): (l: string)
    ensures l == "Load video" <==> s == Waiting
    ensures s != Waiting ==> StatusMessage(s) == Some(l)
  {
    if s == Waiting then "Load video" else StatusMessage(s).value
  }

  /** The label tells every status apart, so the user always sees where the run is. */
  lemma LabelIdentifiesStatus(s: Status, t: Status)
    requires ButtonLabel(s) == ButtonLabel(t)
    ensures s == t
  {
  }
}
