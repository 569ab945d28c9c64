/** The per-try logic of the request core: the check of a response's status,
    the decode of an error body, the classification of a failure into
    retryable or not, and one complete try (`doRetry`). */
module Classify {
  import opened Wrappers
  import opened Http

  /** The tag a try attaches to each kind of failure. */
  function ErrTypeOf(f: Failure): ErrType
  {
    match f
    case Network(_) => ErrNetwork
    case BodyLength(_) => ErrBodyLen
    case Api(_, _) => ErrApi
    case JsonData => ErrJsonData
  }

  /** The errno found by unwrapping the failure's error chain, if any. Only the
      low-level errors wrap one: an API fault and a JSON error do not. */
  function UnderlyingErrno(f: Failure): Option<Errno>
  {
    match f
    case Network(io) => Some(io.errno)
    case BodyLength(io) => Some(io.errno)
    case _ => None
  }

  /** The classification table, stated per error type: which failures are
      worth another try. */
  predicate RetryableKind(f: Failure)
    ensures UnderlyingErrno(f) == Some(ConnectionReset) || UnderlyingErrno(f) == Some(BrokenPipe) ==> RetryableKind(f)
    ensures !RetryableKind(f) ==> f.Network? || f.Api?
  {
    match f
    case Network(io) => io.errno != OtherErrno || io.temporary
    case BodyLength(_) => true
    case Api(status, _) => status == 429 || status >= 500
    case JsonData => true
  }

  /** Wraps a failure with the first rule of the table that applies to it,
      in the order the rules are tried, and says whether to retry. */
  function HandleErrorResponse(f: Failure, tryNum: nat): (r: TryResult)
    ensures r.Failed? && r.err.Classified?
    ensures r.err.failure == f && r.err.errType == ErrTypeOf(f)
    ensures r.retry <==> RetryableKind(f)
    ensures r.retry <==> !r.err.verdict.NonRetryable?
    ensures !r.retry ==> r.err.verdict == NonRetryable(tryNum)
    ensures UnderlyingErrno(f) == Some(ConnectionReset) ==> r.err.verdict == RetryConnectionReset
    ensures UnderlyingErrno(f) == Some(BrokenPipe) ==> r.err.verdict == RetryBrokenPipe
    ensures f.Network? && f.io.errno == OtherErrno && f.io.temporary ==> r.err.verdict == RetryNetwork
    ensures f.BodyLength? && f.io.errno == OtherErrno ==> r.err.verdict == RetryBodyLength
    ensures f.Api? && r.retry ==> r.err.verdict == RetryStatus(f.status)
    ensures f.JsonData? ==> r.err.verdict == RetryInvalidJson
  {
    var t := ErrTypeOf(f);
    var v :=
      if UnderlyingErrno(f) == Some(ConnectionReset) then RetryConnectionReset
      else if UnderlyingErrno(f) == Some(BrokenPipe) then RetryBrokenPipe
      else if t == ErrNetwork && f.io.temporary then RetryNetwork
      else if t == ErrBodyLen then RetryBodyLength
      else if t == ErrApi && (f.status == 429 || f.status >= 500) then RetryStatus(f.status)
      else if t == ErrJsonData then RetryInvalidJson
      else NonRetryable(tryNum);
    Failed(Classified(f, t, v), !v.NonRetryable?)
  }

  /** The error a non-2xx response turns into: the body's error document when
      it decodes, otherwise a generic method/URL/status error. */
  function DecodeErrorResponse(res: Response): (r: ApiFault)
    ensures r.Decoded? <==> res.errorDoc.Some?
    ensures res.errorDoc.Some? ==> r == Decoded(res.errorDoc.value)
    ensures r.Generic? ==> r == Generic(res.request.httpMethod, res.request.url, res.statusLine)
  {
    match res.errorDoc
    case Some(doc) => Decoded(doc)
    case None => Generic(res.request.httpMethod, res.request.url, res.statusLine)
  }

  /** A status in 200..299 is success; anything else is an error. */
  function CheckResponse(res: Response): (r: Option<ApiFault>)
    ensures r.None? <==> 200 <= res.status <= 299
    ensures r.Some? && res.errorDoc.Some? ==> r.value == Decoded(res.errorDoc.value)
    ensures r.Some? && res.errorDoc.None? ==> r.value.Generic? && r.value.statusLine == res.statusLine
    ensures r.Some? ==> r.value == DecodeErrorResponse(res)
  {
    if 200 <= res.status <= 299 then None else Some(DecodeErrorResponse(res))
  }

  /** The failure an attempt stands for when its try fails: the transport or
      body-read error itself, the API error a non-2xx response decodes to,
      or, for a 2xx response, the target's decode error. */
  function FailureOf(req: Request, a: Attempt): Failure
  {
    match a
    case TransportError(io) => Network(io)
    case BodyReadError(io) => BodyLength(io)
    case Received(s, l, b, d) =>
      if 200 <= s <= 299 then JsonData else Api(s, DecodeErrorResponse(Response(req, s, l, b, d)))
  }

  /** One try of a request: transport, body read, status check and, for a
      2xx response and a target, the decode into the target. */
  function DoRetry(req: Request, a: Attempt, target: Target, tryNum: nat): (r: TryResult)
    ensures r.Done? <==> a.Received? && 200 <= a.status <= 299 && (target.NoTarget? || target.decodes(a.body))
    ensures r.Done? ==> r.response == Response(req, a.status, a.statusLine, a.body, a.errorDoc)
    ensures r.Failed? ==> r.err.Classified?
    ensures r.Failed? && a.TransportError? ==> r.err.errType == ErrNetwork
    ensures r.Failed? && a.BodyReadError? ==> r.err.errType == ErrBodyLen
    ensures r.Failed? && a.Received? && !(200 <= a.status <= 299) ==> r.err.errType == ErrApi
    ensures r.Failed? && a.Received? && 200 <= a.status <= 299 ==> r.err.errType == ErrJsonData
    ensures r.Failed? ==> r.err.failure == FailureOf(req, a)
    ensures r.Failed? ==> (r.retry <==> RetryableKind(r.err.failure))
    ensures r.Failed? ==> r == HandleErrorResponse(FailureOf(req, a), tryNum)
  {
    match a
    case TransportError(io) => HandleErrorResponse(Network(io), tryNum)
    case BodyReadError(io) => HandleErrorResponse(BodyLength(io), tryNum)
    case Received(status, line, body, doc) =>
      var res := Response(req, status, line, body, doc);
      match CheckResponse(res)
      case Some(fault) => HandleErrorResponse(Api(status, fault), tryNum)
      case None =>
        if target.Into? && !target.decodes(body) then HandleErrorResponse(JsonData, tryNum)
        else Done(res)
  }

  /** The retry decision of one try, read off the attempt alone: every
      low-level and decode failure is retryable except a network error that
      is neither a reset, a broken pipe nor temporary; an HTTP error is
      retryable exactly for 429 and any status of at least 500. */
  lemma DoRetryRetryTable(req: Request, a: Attempt, target: Target, tryNum: nat)
    ensures var r := DoRetry(req, a, target, tryNum);
      r.Failed? ==>
        (r.retry <==>
          match a
          case TransportError(io) => io.errno != OtherErrno || io.temporary
          case BodyReadError(_) => true
          case Received(status, _, _, _) => status == 429 || status >= 500 || 200 <= status <= 299)
  {
    var r := DoRetry(req, a, target, tryNum);
    if r.Failed? && a.Received? && !(200 <= a.status <= 299) {
      assert r.err.failure.Api? && r.err.failure.status == a.status;
    }
  }

  /** The target is consulted only for a 2xx response: outside that range the
      try ends the same whatever the target. */
  lemma TargetOnlyDecodedOn2xx(req: Request, a: Attempt, target: Target, tryNum: nat)
    requires !(a.Received? && 200 <= a.status <= 299)
    ensures DoRetry(req, a, target, tryNum) == DoRetry(req, a, NoTarget, tryNum)
  {
  }

  /** A 403 response (or any 4xx other than 429) is not retryable, whether or
      not its body decodes as an error document. */
  lemma ClientErrorIsFatal(req: Request, status: int, line: string, body: seq<byte>, doc: Option<ApiError>, target: Target, tryNum: nat)
    requires 400 <= status <= 499 && status != 429
    ensures var r := DoRetry(req, Received(status, line, body, doc), target, tryNum);
      r.Failed? && !r.retry && r.err.verdict == NonRetryable(tryNum)
      && r.err.failure == Api(status, if doc.Some? then Decoded(doc.value) else Generic(req.httpMethod, req.url, line))
  {
  }
}
