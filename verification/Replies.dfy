/** The reply alphabet of the protocol: what the upload and the label poll can come back
    with, and how the client and the plain demo read it. */
module Replies {
  import opened Seqs

  datatype LoadStatus = Blank | Success | PublishTimeout | LabelAlreadyExists | Fail | OtherStatus
  datatype JobStatus = JobRunning | JobFinished | OtherJob

  /** The response document, once it parses. */
  datatype LoadResponse = LoadResponse(status: LoadStatus, existingJob: JobStatus)

  datatype HttpBody = NoBody | Unreadable | Document(response: LoadResponse)

  /** `DialFailed`: no connection was made. `TransportFailed`: any other transport error. */
  datatype SendReply =
    | EncodeFailed
    | DialFailed
    | TransportFailed
    | Answered(statusCode: int, body: HttpBody)

  datatype LoadError = LoadError(retriable: bool, ambiguous: bool)

  datatype Outcome = Accepted | Rejected(err: LoadError)

  datatype TxnState = VISIBLE | COMMITTED | ABORTED | UNKNOWN | PREPARE | PRECOMMITTED | OtherState

  datatype PollReply =
    | NoDatabase
    | PollDialFailed
    | PollTransportFailed
    | PollUnreadable
    | PollNoData
    | PollState(state: TxnState)

  predicate Is2xx(statusCode: int) {
    200 <= statusCode < 300
  }

  predicate IsTransientCode(statusCode: int) {
    statusCode == 429 || statusCode == 408 || statusCode >= 500
  }

  function ClassifyTransport(dial: bool): LoadError {
    if dial then LoadError(true, false) else LoadError(false, true)
  }

  function ResponseOf(body: HttpBody): Option<LoadResponse> {
    match body
    case Document(response) => Some(response)
    case _ => None
  }

  predicate IsHTTPSuccess(statusCode: int, response: Option<LoadResponse>) {
    Is2xx(statusCode) &&
    match response
    case None => true
    case Some(r) =>
      match r.status
      case Blank => true
      case Success => true
      case PublishTimeout => true
      case LabelAlreadyExists => r.existingJob.JobFinished?
      case _ => false
  }

  /** A failed response is retried for a transient code, unless Doris names the label's
      fate; it is ambiguous exactly when the label's job is reported running. */
  function ResponseError(statusCode: int, response: Option<LoadResponse>): LoadError {
    LoadError(
      IsTransientCode(statusCode) &&
        (response.Some? ==> response.value.status !in {Success, PublishTimeout, LabelAlreadyExists}),
      response.Some? && response.value == LoadResponse(LabelAlreadyExists, JobRunning))
  }

  method ClassifyResponseError(statusCode: int, response: Option<LoadResponse>) returns (err: LoadError)
    ensures err == ResponseError(statusCode, response)
  {
    var retriable := false;
    if statusCode == 429 {
      retriable := true;
    } else if statusCode == 408 {
      retriable := true;
    } else if statusCode >= 500 {
      retriable := true;
    }
    if response.Some? {
      match response.value.status {
        case Success =>
          retriable := false;
        case PublishTimeout =>
          retriable := false;
        case LabelAlreadyExists =>
          retriable := false;
          return LoadError(false, response.value.existingJob.JobRunning?);
        case Fail =>
          if statusCode >= 500 {
            retriable := true;
          }
        case _ =>
      }
    }
    return LoadError(retriable, false);
  }

  /** How the client's Send concludes. */
  function SendOutcome(reply: SendReply): Outcome {
    match reply
    case EncodeFailed => Rejected(LoadError(false, false))
    case DialFailed => Rejected(ClassifyTransport(true))
    case TransportFailed => Rejected(ClassifyTransport(false))
    case Answered(statusCode, body) =>
      if Is2xx(statusCode) && !body.Document? then Rejected(LoadError(false, true))
      else if !IsHTTPSuccess(statusCode, ResponseOf(body)) then Rejected(ResponseError(statusCode, ResponseOf(body)))
      else Accepted
  }

  /** How the plain demo's sendCSVBatch concludes; an unreadable body is fatal there. */
  function DemoOutcome(reply: SendReply): Outcome {
    match reply
    case EncodeFailed => Rejected(LoadError(false, false))
    case DialFailed => Rejected(ClassifyTransport(true))
    case TransportFailed => Rejected(ClassifyTransport(false))
    case Answered(statusCode, body) =>
      if !body.Document? then Rejected(LoadError(false, false))
      else if IsHTTPSuccess(statusCode, ResponseOf(body)) then Accepted
      else if body.response.status.LabelAlreadyExists? then
        Rejected(LoadError(false, body.response.existingJob.JobRunning?))
      else Rejected(LoadError(IsTransientCode(statusCode), false))
  }

  /** The replies that say the load is in: a readable 2xx document that names no failure,
      or that says the label's earlier job has finished. */
  predicate SaysLoaded(reply: SendReply) {
    && reply.Answered? && Is2xx(reply.statusCode) && reply.body.Document?
    && var r := reply.body.response;
       r.status in {Blank, Success, PublishTimeout} || r == LoadResponse(LabelAlreadyExists, JobFinished)
  }

  /** Both readers report success on exactly those replies, and no error is at once
      retried as it is and ambiguous. */
  lemma SuccessIsOnlyOnEvidence(reply: SendReply)
    ensures SendOutcome(reply).Accepted? <==> SaysLoaded(reply)
    ensures DemoOutcome(reply).Accepted? <==> SaysLoaded(reply)
    ensures SendOutcome(reply).Rejected? ==> !(SendOutcome(reply).err.retriable && SendOutcome(reply).err.ambiguous)
    ensures DemoOutcome(reply).Rejected? ==> !(DemoOutcome(reply).err.retriable && DemoOutcome(reply).err.ambiguous)
    ensures SendOutcome(reply).Rejected? && SendOutcome(reply).err.retriable ==>
              reply.DialFailed? || (reply.Answered? && IsTransientCode(reply.statusCode))
  {
    if reply.Answered? && reply.body.Document? {
      var r := reply.body.response;
      assert r == LoadResponse(r.status, r.existingJob);
    }
  }

  predicate HasStatus(reply: SendReply, status: LoadStatus) {
    reply.Answered? && reply.body.Document? && reply.body.response.status == status
  }

  /** Exactly which replies the client retries under the same label, and which make it ask
      Doris what became of the label. */
  lemma WhenTheClientRetries(reply: SendReply)
    ensures SendOutcome(reply).Rejected? && SendOutcome(reply).err.retriable <==>
            || reply.DialFailed?
            || (&& reply.Answered?
                && (reply.statusCode == 408 || reply.statusCode == 429 || reply.statusCode >= 500)
                && !HasStatus(reply, Success) && !HasStatus(reply, PublishTimeout)
                && !HasStatus(reply, LabelAlreadyExists))
    ensures SendOutcome(reply).Rejected? && SendOutcome(reply).err.ambiguous <==>
            || reply.TransportFailed?
            || (reply.Answered? && 200 <= reply.statusCode <= 299 && !reply.body.Document?)
            || (HasStatus(reply, LabelAlreadyExists) && reply.body.response.existingJob == JobRunning)
  {
    if reply.Answered? && reply.body.Document? {
      var r := reply.body.response;
      assert r == LoadResponse(r.status, r.existingJob);
    }
  }

  /** The same for the plain demo: it gives up on an answer it cannot read, and looks at the
      code of any other failure but a label that exists. */
  lemma WhenTheDemoRetries(reply: SendReply)
    ensures DemoOutcome(reply).Rejected? && DemoOutcome(reply).err.retriable <==>
            || reply.DialFailed?
            || (&& reply.Answered? && reply.body.Document? && !HasStatus(reply, LabelAlreadyExists)
                && (reply.statusCode == 408 || reply.statusCode == 429 || reply.statusCode >= 500))
    ensures DemoOutcome(reply).Rejected? && DemoOutcome(reply).err.ambiguous <==>
            || reply.TransportFailed?
            || (HasStatus(reply, LabelAlreadyExists) && reply.body.response.existingJob == JobRunning)
  {
    if reply.Answered? && reply.body.Document? {
      var r := reply.body.response;
      assert r == LoadResponse(r.status, r.existingJob);
    }
  }

  /** The error a failed poll request carries; None when a state was read. */
  function PollError(reply: PollReply): Option<LoadError> {
    match reply
    case PollDialFailed => Some(ClassifyTransport(true))
    case PollTransportFailed => Some(ClassifyTransport(false))
    case PollState(_) => None
    case _ => Some(LoadError(false, false))
  }

  predicate SaysVisible(reply: PollReply) {
    reply.PollState? && (reply.state.VISIBLE? || reply.state.COMMITTED?)
  }

  predicate SaysGone(reply: PollReply) {
    reply.PollState? && (reply.state.ABORTED? || reply.state.UNKNOWN?)
  }

  predicate IsConclusive(reply: PollReply) {
    SaysVisible(reply) || SaysGone(reply)
  }

  /** The error reported when the poll window closes on `reply`. */
  function ExpiryError(reply: PollReply): LoadError {
    match PollError(reply)
    case Some(err) => err
    case None => LoadError(false, true)
  }

  /** A poll window that closes leaves an error the client retries exactly after a failed
      dial, and an ambiguous one exactly when the label's fate is still open. */
  lemma WhenAnExpiryIsRetried(reply: PollReply)
    requires !IsConclusive(reply)
    ensures ExpiryError(reply).retriable <==> reply == PollDialFailed
    ensures ExpiryError(reply).ambiguous <==> reply == PollTransportFailed || reply.PollState?
  {}
}
