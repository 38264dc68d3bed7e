/**
 * The request helper shared by all fetchers: at most two attempts, retrying only transient
 * failures. A response is an abstract outcome; its JSON body, when it decodes, is a value of
 * the payload type `P` of the fetcher that asked.
 */
module Http {
  import opened Options

  /** What one attempt produced. */
  datatype Response<P> =
    | Reply(status: int, jsonContentType: bool, bracketed: bool, body: Option<P>)
      // `jsonContentType`: the content type mentions application/json;
      // `bracketed`: the stripped text starts with `{` or `[`;
      // `body`: the decoded JSON, `None` when decoding raised
    | TimedOut         // asyncio.TimeoutError
    | ConnectorError   // aiohttp.ClientConnectorError
    | ClientError      // any other aiohttp.ClientError
    | Unexpected       // any other exception

  /** The responses the first and, if it is made, the second attempt get. */
  datatype Attempts<P> = Attempts(first: Response<P>, second: Response<P>)

  /** An attempt whose failure is retried when it is the first one. */
  function Transient<P>(r: Response<P>): (retried: bool)
    ensures r.Reply? && (r.status == 200 || r.status == 401 || r.status == 403) ==> !retried
    ensures r.Reply? && r.status == 429 ==> retried
    ensures r.Reply? && r.status >= 500 ==> retried
    ensures r.Reply? && 400 <= r.status < 500 && r.status != 401 && r.status != 403 ==> retried
    ensures r.Reply? && r.status != 200 && r.status != 401 && r.status != 403 ==> retried
    ensures r.TimedOut? || r.ConnectorError? ==> retried
    ensures r.ClientError? || r.Unexpected? ==> !retried
  {
    match r
    case Reply(status, _, _, _) => status != 200 && status != 401 && status != 403
    case TimedOut => true
    case ConnectorError => true
    case _ => false
  }

  /** What an attempt returns when it is not retried: the decoded body of a JSON 200, else nothing. */
  function Outcome<P>(r: Response<P>): (data: Option<P>)
    ensures Transient(r) ==> data == None
    ensures r.Reply? ==> (data.Some? <==> r.status == 200 && (r.jsonContentType || r.bracketed) && r.body.Some?)
    ensures data.Some? ==> r.Reply? && data == r.body
    ensures !r.Reply? ==> data == None
  {
    match r
    case Reply(status, json, bracketed, body) =>
      if status == 200 && (json || bracketed) then body else None
    case _ => None
  }

  /** Seconds slept before the second attempt: 2 after a rate limit, 1 after other transient failures. */
  function Backoff<P>(r: Response<P>): (seconds: nat)
    ensures seconds == 2 <==> r.Reply? && r.status == 429
    ensures seconds == 1 || seconds == 2
  {
    if r.Reply? && r.status == 429 then 2 else 1
  }

  /** The result of the whole call. */
  function RequestResult<P>(a: Attempts<P>): (data: Option<P>)
    ensures !Transient(a.first) ==> data == Outcome(a.first)
    ensures Transient(a.first) ==> data == Outcome(a.second)
    ensures data.Some? ==>
      (a.first.Reply? && a.first.status == 200 && data == a.first.body)
      || (Transient(a.first) && a.second.Reply? && a.second.status == 200 && data == a.second.body)
  {
    if Transient(a.first) then Outcome(a.second) else Outcome(a.first)
  }

  /** `_make_request`: the attempt loop, with the number of attempts made and the seconds slept. */
  method MakeRequest<P>(a: Attempts<P>) returns (data: Option<P>, attempts: nat, slept: nat)
    ensures data == RequestResult(a)
    ensures attempts == if Transient(a.first) then 2 else 1
    ensures slept == if Transient(a.first) then Backoff(a.first) else 0
  {
    data, attempts, slept := None, 0, 0;
    var attempt := 0;
    while attempt < 2
      invariant 0 <= attempt <= 2 && attempts == attempt && data == None
      invariant attempt == 0 ==> slept == 0
      invariant attempt >= 1 ==> Transient(a.first) && slept == Backoff(a.first)
      invariant attempt == 2 ==> Transient(a.second)
    {
      var response := if attempt == 0 then a.first else a.second;
      attempts := attempts + 1;
      match response {
        case Reply(status, json, bracketed, body) =>
          if status == 200 {
            if json {
              data := body;
            } else if bracketed {
              data := body;
            } else {
              data := None;
            }
            return;
          } else if status == 429 {
            if attempt == 0 {
              slept := slept + 2;
              attempt := attempt + 1;
              continue;
            }
            return;
          } else if status == 403 || status == 401 {
            return;
          } else {
            if attempt == 0 {
              slept := slept + 1;
              attempt := attempt + 1;
              continue;
            }
            return;
          }
        case TimedOut =>
          if attempt == 0 {
            slept := slept + 1;
            attempt := attempt + 1;
            continue;
          }
          return;
        case ConnectorError =>
          if attempt == 0 {
            slept := slept + 1;
            attempt := attempt + 1;
            continue;
          }
          return;
        case ClientError =>
          return;
        case Unexpected =>
          return;
      }
    }
    data := None;
  }

  /** Authentication failures are final: one attempt, no data. */
  lemma AuthFailureIsNotRetried<P>(a: Attempts<P>)
    requires a.first.Reply? && (a.first.status == 401 || a.first.status == 403)
    ensures !Transient(a.first) && RequestResult(a) == None
  {
  }

  /** A call whose every attempt times out makes two attempts, sleeps a second, and yields nothing. */
  lemma PersistentTimeout<P>(a: Attempts<P>)
    requires a.first == TimedOut && a.second == TimedOut
    ensures Transient(a.first) && Backoff(a.first) == 1 && RequestResult(a) == None
  {
  }

  /** Data only ever comes from a 200 reply whose body decoded. */
  lemma DataOnlyFromDecodedOk<P>(a: Attempts<P>)
    ensures RequestResult(a).Some? ==>
      var used := if Transient(a.first) then a.second else a.first;
      used.Reply? && used.status == 200 && used.body == RequestResult(a)
  {
  }
}
