/** Data model of the request-execution core of the PagerDuty client
    (pagerduty/pagerduty.go): requests, responses, what one low-level try
    can end in, and the error values the core produces. */
module Http {
  import opened Wrappers

  newtype byte = x: int | 0 <= x < 256

  /** The part of the client configuration the request core reads. */
  datatype Config = Config(baseUrl: string, token: string, userAgent: string)

  /** A per-request option; only options of kind "header" have an effect. */
  datatype RequestOption = RequestOption(kind: string, headerName: string, value: string)

  datatype Header = Header(name: string, value: string)

  /** A fully built HTTP request; `body` is the JSON encoding of the payload, if any. */
  datatype Request = Request(httpMethod: string, url: string, headers: seq<Header>, body: Option<seq<byte>>)

  /** The `errors` member of a PagerDuty error document: absent, a list of
      messages, or a map from field name to messages. */
  datatype ErrorDetail = NoDetail | Messages(list: seq<string>) | FieldMessages(fields: map<string, seq<string>>)

  /** A decoded PagerDuty error document. */
  datatype ApiError = ApiError(code: int, message: string, errors: ErrorDetail)

  /** A response whose body was read in full. `errorDoc` is what decoding the
      body as a PagerDuty error document yields (None when it does not decode). */
  datatype Response = Response(request: Request, status: int, statusLine: string, body: seq<byte>, errorDoc: Option<ApiError>)

  /** The errno at the bottom of a low-level error's wrap chain. */
  datatype Errno = ConnectionReset | BrokenPipe | OtherErrno

  /** A low-level I/O error; `temporary` is what the network error reports of itself. */
  datatype IoError = IoError(errno: Errno, temporary: bool)

  /** What the network and the server do with one try of a request. */
  datatype Attempt =
    | TransportError(io: IoError)
    | BodyReadError(io: IoError)
    | Received(status: int, statusLine: string, body: seq<byte>, errorDoc: Option<ApiError>)

  /** Where a successful response body is to be decoded: nowhere, or into a
      target value for which `decodes` says whether the bytes unmarshal. */
  datatype Target = NoTarget | Into(decodes: seq<byte> -> bool)

  /** The tag attached to each failure of one try. */
  datatype ErrType = ErrNetwork | ErrBodyLen | ErrApi | ErrJsonData

  /** The error a non-2xx response turns into: the decoded error document, or
      a synthesised error naming the method, the URL and the status line. */
  datatype ApiFault = Decoded(doc: ApiError) | Generic(httpMethod: string, url: string, statusLine: string)

  /** The failure of one try together with the data its classification reads. */
  datatype Failure =
    | Network(io: IoError)
    | BodyLength(io: IoError)
    | Api(status: int, fault: ApiFault)
    | JsonData

  /** Which rule of the classification table fired. */
  datatype Verdict =
    | RetryConnectionReset
    | RetryBrokenPipe
    | RetryNetwork
    | RetryBodyLength
    | RetryStatus(status: int)
    | RetryInvalidJson
    | NonRetryable(tryNum: nat)

  /** The error values the core returns. */
  datatype Error =
    | Classified(failure: Failure, errType: ErrType, verdict: Verdict)
    | NonRetryableApi(cause: Error)
    | RetriesExhausted(last: Error, retries: nat)
    | InvalidJson
    | QueryEncodingFailed
    | BodyEncodingFailed

  /** The result of one try: a response, or an error with its retry flag. */
  datatype TryResult = Done(response: Response) | Failed(err: Error, retry: bool)
}
