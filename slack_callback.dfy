/**
 * The Slack interaction callback handler of the access bot
 * (access/slackbot/callback_server.go).
 *
 * Every inbound request increments the server's 64-bit counter, receives the
 * request ID "<timestamp header>-<counter>", and then runs a strict pipeline:
 * set up the signature verifier from the headers, read the body through it,
 * check the signature, decode the JSON payload, and hand the decoded event to
 * the callback under a 2500 ms deadline. The first failing step decides the
 * single HTTP status that is written.
 *
 * The Slack HMAC verifier, the JSON decoder and the callback are foreign code;
 * the model sees only their outcomes (fields of `Request`, and the function
 * value `onCallback`).
 */
module SlackCallback {
  import opened Wrappers
  import opened DecimalFormat

  // ---------------------------------------------------------------------------
  // Constants

  /** The deadline given to each callback (context.WithTimeout, 2500 ms). */
  const DispatchDeadlineMs: nat := 2500
  /** Slack expects an answer to an interaction callback within 3000 ms. */
  const SlackResponseBudgetMs: nat := 3000
  /** Grace period of Shutdown (time.Second * 5). */
  const ShutdownGraceMs: nat := 5 * 1000

  /** The counter is a uint64 updated with atomic.AddUint64, which wraps around. */
  const Uint64Modulus: nat := 0x1_0000_0000_0000_0000

  /** Header.Get canonicalises its key; this is the canonical form of x-slack-request-timestamp. */
  const TimestampHeader: string := "X-Slack-Request-Timestamp"

  const StatusOK: int := 200
  const StatusBadRequest: int := 400
  const StatusUnauthorized: int := 401
  const StatusInternalServerError: int := 500
  const StatusServiceUnavailable: int := 503

  /** The platform budget leaves room after the dispatch deadline, and so does the shutdown grace period. */
  lemma DeadlineMargins()
    ensures DispatchDeadlineMs < SlackResponseBudgetMs
    ensures DispatchDeadlineMs < ShutdownGraceMs
  {
  }

  // ---------------------------------------------------------------------------
  // Requests and what the foreign collaborators report about them

  /** Outcome of slack.NewSecretsVerifier(r.Header, secret): it fails on missing or malformed signing headers. */
  datatype VerifierInit = InitOk | InitFailed

  /** Outcome of sv.Ensure() once the body has been read through the verifier. */
  datatype SignatureCheck = SignatureMatches | SignatureMismatch

  /** The decoded interaction event; its platform-defined fields are not modelled. */
  datatype InteractionCallback = InteractionCallback(raw: string)

  /** Outcome of json.Unmarshal on the form field "payload". */
  datatype Decoding = Decoded(event: InteractionCallback) | DecodeFailed

  /** An inbound request: its header map (canonical keys) and what the collaborators make of it. */
  datatype Request = Request(
    header: map<string, seq<string>>,
    init: VerifierInit,
    signature: SignatureCheck,
    payload: Decoding)

  /** The context handed to the callback: it expires after `timeoutMs`. */
  datatype Context = Context(timeoutMs: nat)

  /** The value handed to the callback: the request ID and the decoded event. */
  datatype Callback = Callback(httpRequestID: string, interaction: InteractionCallback)

  /** The error a callback may return; None stands for nil. */
  datatype CallbackError = Canceled | DeadlineExceeded | Failed(message: string)

  type CallbackFunc = (Context, Callback) -> Option<CallbackError>

  /** The steps of the handler, recorded in the order they run. */
  datatype Stage =
    | InitVerifier
    | ReadBodyThroughVerifier
    | EnsureSignature
    | DecodePayload
    | InvokeCallback(ctx: Context, callback: Callback)

  /** Position of each step in the pipeline. */
  function StageRank(s: Stage): nat {
    match s
    case InitVerifier => 0
    case ReadBodyThroughVerifier => 1
    case EnsureSignature => 2
    case DecodePayload => 3
    case InvokeCallback(_, _) => 4
  }

  /** What one request leads to: the status written and the steps that ran. */
  datatype Outcome = Outcome(status: int, stages: seq<Stage>)

  /** Header.Get: the first value stored under `key`, or "" when there is none. */
  function HeaderGet(header: map<string, seq<string>>, key: string): (v: string)
    ensures key !in header ==> v == ""
    ensures key in header && header[key] == [] ==> v == ""
    ensures key in header && |header[key]| > 0 ==> v == header[key][0]
  {
    if key in header && |header[key]| > 0 then header[key][0] else ""
  }

  // ---------------------------------------------------------------------------
  // Request IDs

  /** fmt.Sprintf("%s-%v", timestamp, counter). */
  function RequestID(timestamp: string, counter: nat): (id: string)
    ensures |id| == |timestamp| + 1 + |Decimal(counter)|
    ensures id[..|timestamp|] == timestamp && id[|timestamp|] == '-'
    ensures id[|timestamp| + 1..] == Decimal(counter)
  {
    timestamp + "-" + Decimal(counter)
  }

  /** Splits a string at its last '-', if it has one. */
  function SplitAtLastDash(s: string): (r: Option<(string, string)>)
    ensures r.Some? ==> r.value.0 + "-" + r.value.1 == s
    ensures r.Some? ==> forall i :: 0 <= i < |r.value.1| ==> r.value.1[i] != '-'
    ensures r.None? <==> forall i :: 0 <= i < |s| ==> s[i] != '-'
    decreases |s|
  {
    if s == [] then None
    else if s[|s| - 1] == '-' then Some((s[..|s| - 1], ""))
    else match SplitAtLastDash(s[..|s| - 1])
      case None => None
      case Some(parts) => Some((parts.0, parts.1 + [s[|s| - 1]]))
  }

  /** Recovers the timestamp and the counter from a request ID. */
  function ParseRequestID(id: string): (r: Option<(string, nat)>)
  {
    match SplitAtLastDash(id)
    case None => None
    case Some(parts) =>
      if |parts.1| > 0 && forall i :: 0 <= i < |parts.1| ==> IsDigit(parts.1[i])
      then Some((parts.0, ParseDecimal(parts.1)))
      else None
  }

  lemma {:induction false} SplitOfDashDigits(prefix: string, digits: string)
    requires forall i :: 0 <= i < |digits| ==> IsDigit(digits[i])
    ensures SplitAtLastDash(prefix + "-" + digits) == Some((prefix, digits))
    decreases |digits|
  {
    var s := prefix + "-" + digits;
    if digits == [] {
      assert s[..|s| - 1] == prefix;
    } else {
      var init := digits[..|digits| - 1];
      assert s[..|s| - 1] == prefix + "-" + init;
      SplitOfDashDigits(prefix, init);
      assert init + [digits[|digits| - 1]] == digits;
    }
  }

  /** A request ID determines both the timestamp and the counter it was made from. */
  lemma ParseRequestIDOfRequestID(timestamp: string, counter: nat)
    ensures ParseRequestID(RequestID(timestamp, counter)) == Some((timestamp, counter))
  {
    SplitOfDashDigits(timestamp, Decimal(counter));
    ParseDecimalOfDecimal(counter);
  }

  /** So request IDs are equal only when both timestamps and counters are. */
  lemma RequestIDInjective(t1: string, n1: nat, t2: string, n2: nat)
    ensures RequestID(t1, n1) == RequestID(t2, n2) <==> t1 == t2 && n1 == n2
  {
    ParseRequestIDOfRequestID(t1, n1);
    ParseRequestIDOfRequestID(t2, n2);
  }

  // ---------------------------------------------------------------------------
  // Counter history

  /** The k-th request served (counting from 0) got the counter value (k + 1) mod 2^64. */
  ghost predicate CounterHistory(issued: seq<nat>) {
    forall k :: 0 <= k < |issued| ==> issued[k] == (k + 1) % Uint64Modulus
  }

  /** Until the counter wraps, no two requests see the same counter value. */
  lemma IssuedDistinct(issued: seq<nat>, i: nat, j: nat)
    requires CounterHistory(issued) && |issued| <= Uint64Modulus
    requires i < j < |issued|
    ensures issued[i] != issued[j]
  {
  }

  /** Two requests of one server get distinct IDs, whatever their timestamps. */
  lemma RequestIDsDistinct(issued: seq<nat>, i: nat, j: nat, t1: string, t2: string)
    requires CounterHistory(issued) && |issued| <= Uint64Modulus
    requires i < j < |issued|
    ensures RequestID(t1, issued[i]) != RequestID(t2, issued[j])
  {
    IssuedDistinct(issued, i, j);
    RequestIDInjective(t1, issued[i], t2, issued[j]);
  }

  // ---------------------------------------------------------------------------
  // Classification and the pipeline

  /** The switch on the callback's error: cancellation and deadline expiry are transient. */
  function ErrorStatus(err: CallbackError): (code: int)
    ensures code == StatusServiceUnavailable <==> err.Canceled? || err.DeadlineExceeded?
    ensures code == StatusInternalServerError <==> err.Failed?
  {
    match err
    case Canceled => StatusServiceUnavailable
    case DeadlineExceeded => StatusServiceUnavailable
    case Failed(_) => StatusInternalServerError
  }

  /** What processCallback does with request `r` once it has been given the ID `id`. */
  function Pipeline(id: string, r: Request, onCallback: CallbackFunc): (o: Outcome)
    // one of the six rows of the status table
    ensures o.status in {StatusOK, StatusBadRequest, StatusUnauthorized,
                         StatusInternalServerError, StatusServiceUnavailable}
    // the steps run in pipeline order, none skipped, none repeated
    ensures 1 <= |o.stages| <= 5
    ensures forall k :: 0 <= k < |o.stages| ==> StageRank(o.stages[k]) == k
    // verifier set-up failure: 500, nothing read, decoded or dispatched
    ensures r.init.InitFailed? ==> o.status == StatusInternalServerError && |o.stages| == 1
    // signature mismatch: 401, the decoder never sees the bytes
    ensures r.init.InitOk? && r.signature.SignatureMismatch? ==>
              o.status == StatusUnauthorized && |o.stages| == 3
    // malformed payload: 400, the callback is not invoked
    ensures r.init.InitOk? && r.signature.SignatureMatches? && r.payload.DecodeFailed? ==>
              o.status == StatusBadRequest && |o.stages| == 4
    // decoding only ever happens after a successful signature check
    ensures DecodePayload in o.stages ==> r.init.InitOk? && r.signature.SignatureMatches?
    // the callback runs exactly when every earlier step succeeded, with this request's ID and the deadline
    ensures |o.stages| == 5 <==> r.init.InitOk? && r.signature.SignatureMatches? && r.payload.Decoded?
    ensures |o.stages| == 5 ==>
              var ctx := Context(DispatchDeadlineMs);
              var cb := Callback(id, r.payload.event);
              o.stages[4] == InvokeCallback(ctx, cb) &&
              (o.status == StatusOK <==> onCallback(ctx, cb).None?) &&
              (onCallback(ctx, cb).Some? ==> o.status == ErrorStatus(onCallback(ctx, cb).value))
  {
    var setUp := [InitVerifier];
    var verified := setUp + [ReadBodyThroughVerifier, EnsureSignature];
    if r.init.InitFailed? then Outcome(StatusInternalServerError, setUp)
    else if r.signature.SignatureMismatch? then Outcome(StatusUnauthorized, verified)
    else if r.payload.DecodeFailed? then Outcome(StatusBadRequest, verified + [DecodePayload])
    else
      var ctx := Context(DispatchDeadlineMs);
      var cb := Callback(id, r.payload.event);
      var err := onCallback(ctx, cb);
      Outcome(if err.None? then StatusOK else ErrorStatus(err.value),
              verified + [DecodePayload, InvokeCallback(ctx, cb)])
  }

  // ---------------------------------------------------------------------------
  // The response writer and the server

  /** The part of http.ResponseWriter the handler uses: the statuses written to it. */
  class ResponseWriter {
    var written: seq<int>

    constructor ()
      ensures written == []
    {
      written := [];
    }

    /** rw.WriteHeader(code). */
    method WriteHeader(code: int)
      modifies this
      ensures written == old(written) + [code]
    {
      written := written + [code];
    }

    /** http.Error(rw, "", code): writes the status (and an empty message). */
    method Error(code: int)
      modifies this
      ensures written == old(written) + [code]
    {
      written := written + [code];
    }
  }

  class CallbackServer {
    const secret: string
    const onCallback: CallbackFunc
    var counter: nat
    /** The counter values handed out so far, oldest first. */
    ghost var issued: seq<nat>

    ghost predicate Valid()
      reads this
    {
      && counter < Uint64Modulus
      && counter == |issued| % Uint64Modulus
      && CounterHistory(issued)
    }

    /** NewCallbackServer: the counter starts at zero. */
    constructor (secret: string, onCallback: CallbackFunc)
      ensures Valid()
      ensures this.secret == secret && this.onCallback == onCallback
      ensures counter == 0 && issued == []
    {
      this.secret := secret;
      this.onCallback := onCallback;
      counter := 0;
      issued := [];
    }

    /**
     * processCallback: handles one request, writes exactly one status to `rw`,
     * and returns the request ID it generated; `stages` records the steps that ran.
     */
    method ProcessCallback(rw: ResponseWriter, r: Request) returns (id: string, ghost stages: seq<Stage>)
      requires Valid()
      modifies this, rw
      ensures Valid()
      ensures counter == (old(counter) + 1) % Uint64Modulus
      ensures issued == old(issued) + [counter]
      ensures id == RequestID(HeaderGet(r.header, TimestampHeader), counter)
      ensures rw.written == old(rw.written) + [Pipeline(id, r, onCallback).status]
      ensures stages == Pipeline(id, r, onCallback).stages
    {
      var ctx := Context(DispatchDeadlineMs);
      counter := (counter + 1) % Uint64Modulus;
      issued := issued + [counter];
      id := RequestID(HeaderGet(r.header, TimestampHeader), counter);

      stages := [InitVerifier];
      if r.init.InitFailed? {
        rw.Error(StatusInternalServerError);
        return;
      }
      stages := stages + [ReadBodyThroughVerifier];
      stages := stages + [EnsureSignature];
      if r.signature.SignatureMismatch? {
        rw.Error(StatusUnauthorized);
        return;
      }
      stages := stages + [DecodePayload];
      if r.payload.DecodeFailed? {
        rw.Error(StatusBadRequest);
        return;
      }
      var cb := Callback(id, r.payload.event);
      stages := stages + [InvokeCallback(ctx, cb)];
      var err := onCallback(ctx, cb);
      if err.Some? {
        rw.Error(ErrorStatus(err.value));
      } else {
        rw.WriteHeader(StatusOK);
      }
    }
  }
}
