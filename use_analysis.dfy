/**
 * The `useAnalysis` hook (fixo-v2/src/hooks/use-analysis.ts): the guards in
 * front of an analysis request and the `isAnalyzing` / `result` / `error`
 * state it moves through. The `/api/analyze` exchange is its reply, given as
 * an input; the requests sent and the callbacks invoked are recorded in log
 * fields. React's deferred state updates are modelled as immediate ones.
 */
module UseAnalysis {
  import opened Wrappers
  import opened Js
  import UseUser

  const UploadRequired := "Nahrajte fotografii nebo popište problém"
  const LimitReached := "Dosáhli jste měsíčního limitu analýz. Upgradujte na PLUS pro neomezené analýzy."
  const AnalysisFailed := "Analýza selhala"
  const UnexpectedError := "Neočekávaná chyba"

  /** What the request came to: the JSON body, or something thrown by `fetch` or `json()`. */
  datatype Reply<T> =
    | Body(success: bool, data: Option<T>, error: Option<string>)
    | Thrown(isError: bool, message: string)

  datatype Request = Request(image: Option<string>, description: Option<string>)

  datatype Notice<T> = SuccessNotice(result: Option<T>) | ErrorNotice(message: string)

  /** The message of a request that did not succeed, or `None` for a successful one. */
  function FailureMessage<T>(reply: Reply<T>): (m: Option<string>)
    ensures m.None? <==> reply.Body? && reply.success
    ensures reply.Body? && !reply.success ==>
      m == Some(if StrTruthy(reply.error) then reply.error.value else AnalysisFailed)
    ensures reply.Thrown? ==> m == Some(if reply.isError then reply.message else UnexpectedError)
  {
    match reply
    case Body(success, _, error) => if success then None else Some(StrOr(error, AnalysisFailed))
    case Thrown(isError, message) => Some(if isError then message else UnexpectedError)
  }

  /** The error set by the guards, in their order; `None` when the request goes out. */
  function GuardError(image: Option<string>, description: Option<string>, user: Option<UseUser.User>): (e: Option<string>)
    ensures !StrTruthy(image) && !StrTruthy(description) ==> e == Some(UploadRequired)
    ensures (StrTruthy(image) || StrTruthy(description)) && user.Some? && !user.value.canAnalyze ==> e == Some(LimitReached)
    ensures e.None? <==> (StrTruthy(image) || StrTruthy(description)) && (user.None? || user.value.canAnalyze)
  {
    if !StrTruthy(image) && !StrTruthy(description) then Some(UploadRequired)
    else if user.Some? && !user.value.canAnalyze then Some(LimitReached)
    else None
  }

  /** The empty-input check wins over the quota check. */
  lemma EmptyInputBeforeQuota(user: Option<UseUser.User>)
    ensures GuardError(None, None, user) == Some(UploadRequired)
    ensures GuardError(Some(""), Some(""), user) == Some(UploadRequired)
  {
  }

  class AnalysisHook<T> {
    const user: Option<UseUser.User>
    const hasOnSuccess: bool
    const hasOnError: bool
    var isAnalyzing: bool
    var result: Option<T>
    var error: Option<string>
    var requests: seq<Request>
    var notices: seq<Notice<T>>

    constructor (user: Option<UseUser.User>, hasOnSuccess: bool, hasOnError: bool)
      ensures this.user == user && this.hasOnSuccess == hasOnSuccess && this.hasOnError == hasOnError
      ensures !isAnalyzing && result == None && error == None && requests == [] && notices == []
    {
      this.user := user;
      this.hasOnSuccess := hasOnSuccess;
      this.hasOnError := hasOnError;
      isAnalyzing := false;
      result := None;
      error := None;
      requests := [];
      notices := [];
    }

    /** `user?.canAnalyze ?? true`. */
    function CanAnalyze(): (ok: bool)
      ensures ok <==> user.None? || user.value.canAnalyze
    {
      if user.Some? then user.value.canAnalyze else true
    }

    /** `user ? limit - used : 3`; negative once the count passes the limit. */
    function AnalysesRemaining(): (n: int)
      ensures user.None? ==> n == 3
      ensures user.Some? ==> n + user.value.monthlyAnalysesUsed == user.value.monthlyAnalysesLimit
    {
      if user.Some? then user.value.monthlyAnalysesLimit - user.value.monthlyAnalysesUsed else 3
    }

    /** Entering the request: `setIsAnalyzing(true)`, `setError(null)`, then the request. */
    method Begin(req: Request)
      modifies this
      ensures isAnalyzing && error == None
      ensures requests == old(requests) + [req]
      ensures result == old(result) && notices == old(notices)
    {
      isAnalyzing := true;
      error := None;
      requests := requests + [req];
    }

    /** `analyze(image, description)` against the reply the request gets. */
    method Analyze(image: Option<string>, description: Option<string>, reply: Reply<T>) returns (r: Option<T>)
      modifies this
      // a guard stops the call: only `error` changes and no request goes out
      ensures GuardError(image, description, user).Some? ==>
        && r == None && error == GuardError(image, description, user)
        && isAnalyzing == old(isAnalyzing) && result == old(result)
        && requests == old(requests) && notices == old(notices)
      // otherwise exactly one request goes out and `isAnalyzing` ends false
      ensures GuardError(image, description, user).None? ==>
        requests == old(requests) + [Request(image, description)] && !isAnalyzing
      ensures GuardError(image, description, user).None? && FailureMessage(reply).None? ==>
        && r == reply.data && result == reply.data && error == None
        && notices == old(notices) + (if hasOnSuccess then [SuccessNotice(reply.data)] else [])
      ensures GuardError(image, description, user).None? && FailureMessage(reply).Some? ==>
        && r == None && result == old(result) && error == FailureMessage(reply)
        && notices == old(notices) + (if hasOnError then [ErrorNotice(FailureMessage(reply).value)] else [])
    {
      if !StrTruthy(image) && !StrTruthy(description) {
        error := Some(UploadRequired);
        return None;
      }
      if user.Some? && !user.value.canAnalyze {
        error := Some(LimitReached);
        return None;
      }
      Begin(Request(image, description));
      var failure := FailureMessage(reply);
      if failure.None? {
        result := reply.data;
        if hasOnSuccess {
          notices := notices + [SuccessNotice(reply.data)];
        }
        r := reply.data;
      } else {
        error := failure;
        if hasOnError {
          notices := notices + [ErrorNotice(failure.value)];
        }
        r := None;
      }
      isAnalyzing := false;
    }

    /** `reset`: clears the result and the error and nothing else. */
    method Reset()
      modifies this
      ensures result == None && error == None
      ensures isAnalyzing == old(isAnalyzing) && requests == old(requests) && notices == old(notices)
    {
      result := None;
      error := None;
    }
  }
}
