/**
 * The cross-cutting code of app/core/security.py: redaction of logged
 * parameters, the bearer-token check, and the bookkeeping `audit_log`
 * wraps around every tool call.
 */
module Security {
  import opened Wrappers
  import opened Errors
  import opened Text
  import opened Telemetry

  /** A keyword argument's value as it reaches the log. */
  datatype Value = IntValue(i: int) | StrValue(s: string)

  /** The replacement for a sensitive value. */
  const Redacted: Value := StrValue("***")

  const SensitiveKeys: set<string> := {"email", "password", "token", "authorization", "ip_address"}

  /** `k.lower() in SENSITIVE_KEYS`; every entry of the denylist is itself sensitive. */
  predicate IsSensitive(k: string)
    ensures k in SensitiveKeys ==> IsSensitive(k)
  {
    if k in SensitiveKeys then
      LowerOfLowerCase(k);
      Lower(k) in SensitiveKeys
    else
      Lower(k) in SensitiveKeys
  }

  function MaskedValue(k: string, v: Value): Value
  {
    if IsSensitive(k) then Redacted else v
  }

  /** The dictionary `mask_sensitive_data` builds. */
  function Masked(data: map<string, Value>): (r: map<string, Value>)
    ensures r.Keys == data.Keys
    ensures forall k :: k in data && IsSensitive(k) ==> r[k] == Redacted
    ensures forall k :: k in data && !IsSensitive(k) ==> r[k] == data[k]
  {
    map k | k in data :: MaskedValue(k, data[k])
  }

  /** `mask_sensitive_data`: fills a fresh dictionary key by key. */
  method MaskSensitiveData(data: map<string, Value>) returns (masked: map<string, Value>)
    ensures masked.Keys == data.Keys
    ensures forall k :: k in data ==> masked[k] == if IsSensitive(k) then Redacted else data[k]
    ensures masked == Masked(data)
  {
    masked := map[];
    var pending := data.Keys;
    while pending != {}
      invariant pending <= data.Keys
      invariant masked.Keys == data.Keys - pending
      invariant forall k :: k in masked ==> masked[k] == MaskedValue(k, data[k])
      decreases pending
    {
      var k :| k in pending;
      if IsSensitive(k) {
        masked := masked[k := Redacted];
      } else {
        masked := masked[k := data[k]];
      }
      pending := pending - {k};
    }
  }

  /** Masking an already masked dictionary changes nothing. */
  lemma MaskIdempotent(data: map<string, Value>)
    ensures Masked(Masked(data)) == Masked(data)
  {
  }

  /** The denylist is matched case-insensitively: only the letters' case of a key is irrelevant. */
  lemma SensitivityIgnoresCase(k: string, k': string)
    requires Lower(k) == Lower(k')
    ensures IsSensitive(k) <==> IsSensitive(k')
  {
  }

  lemma {:induction false} CapitalisedEmailIsMasked(v: Value)
    ensures Masked(map["Email" := v]) == map["Email" := Redacted]
  {
    assert Lower("Email") == "email" by {
      assert Lower("Email") == [LowerChar('E')] + Lower("mail");
    }
  }

  /** `{"email": "a@b.com", "page": 2}` is logged as `{"email": "***", "page": 2}`. */
  lemma MaskExample()
    ensures Masked(map["email" := StrValue("a@b.com"), "page" := IntValue(2)])
         == map["email" := Redacted, "page" := IntValue(2)]
  {
    assert Lower("email") == "email";
    assert Lower("page") == "page";
    assert IsSensitive("email") && !IsSensitive("page");
  }

  /** The 401 that `verify_token` raises. */
  datatype HttpException = HttpException(statusCode: int, detail: string)

  const InvalidCredentials: HttpException := HttpException(401, "Invalid authentication credentials")

  /** `verify_token` against the configured `API_TOKEN`. */
  method VerifyToken(metrics: Metrics, apiToken: string, credentials: string) returns (r: Result<string, HttpException>)
    modifies metrics
    ensures credentials != apiToken ==> r == Err(InvalidCredentials) && metrics.authFailures == old(metrics.authFailures) + 1
    ensures credentials == apiToken ==> r == Ok(credentials) && metrics.authFailures == old(metrics.authFailures)
    ensures metrics.toolCalls == old(metrics.toolCalls)
    ensures metrics.latencyObservations == old(metrics.latencyObservations)
  {
    if credentials != apiToken {
      metrics.IncAuthFailures();
      return Err(InvalidCredentials);
    }
    return Ok(credentials);
  }

  /** One structured entry of the audit logger. */
  datatype AuditRecord =
    | ExecutionSucceeded(tool: string, params: map<string, Value>)
    | ExecutionFailed(tool: string, error: string, errorType: string, params: map<string, Value>)

  class AuditLog {
    var records: seq<AuditRecord>

    constructor ()
      ensures records == []
    {
      records := [];
    }

    method Append(record: AuditRecord)
      modifies this
      ensures records == old(records) + [record]
    {
      records := records + [record];
    }
  }

  /** The log entry and counter the wrapper writes for a call's outcome. */
  function RecordFor<R>(toolName: string, kwargs: map<string, Value>, outcome: Result<R, Exception>): (r: AuditRecord)
    ensures r.tool == toolName && r.params == Masked(kwargs)
    ensures r.ExecutionSucceeded? <==> outcome.Ok?
    ensures outcome.Err? ==> r.error == outcome.error.message && r.errorType == TypeName(outcome.error.kind)
  {
    match outcome
    case Ok(_) => ExecutionSucceeded(toolName, Masked(kwargs))
    case Err(e) => ExecutionFailed(toolName, e.message, TypeName(e.kind), Masked(kwargs))
  }

  /** The `status` label: `"success"` exactly for a call that returned. */
  function StatusOf<R>(outcome: Result<R, Exception>): (s: Status)
    ensures s == Success <==> outcome.Ok?
    ensures s == Error <==> outcome.Err?
  {
    if outcome.Ok? then Success else Error
  }

  /**
   * `audit_log(tool_name)`'s wrapper around one call whose `outcome` is what
   * the wrapped function returned or raised: one counter, a latency
   * observation on success only, one masked log entry, and the outcome
   * handed back untouched.
   */
  method AuditedCall<R>(metrics: Metrics, audit: AuditLog, toolName: string, kwargs: map<string, Value>,
                        outcome: Result<R, Exception>) returns (r: Result<R, Exception>)
    modifies metrics, audit
    ensures r == outcome
    ensures metrics.toolCalls == Bumped(old(metrics.toolCalls), (toolName, StatusOf(outcome)))
    ensures metrics.CallCount(toolName, StatusOf(outcome)) == old(metrics.CallCount(toolName, StatusOf(outcome))) + 1
    ensures forall tool, status :: (tool, status) != (toolName, StatusOf(outcome)) ==>
              metrics.CallCount(tool, status) == old(metrics.CallCount(tool, status))
    ensures metrics.LatencyCount(toolName) == old(metrics.LatencyCount(toolName)) + if outcome.Ok? then 1 else 0
    ensures metrics.latencyObservations ==
            if outcome.Ok? then Bumped(old(metrics.latencyObservations), toolName) else old(metrics.latencyObservations)
    ensures metrics.authFailures == old(metrics.authFailures)
    ensures audit.records == old(audit.records) + [RecordFor(toolName, kwargs, outcome)]
  {
    var params := MaskSensitiveData(kwargs);
    match outcome {
      case Ok(_) =>
        metrics.ObserveLatency(toolName);
        metrics.IncToolCall(toolName, Success);
        audit.Append(ExecutionSucceeded(toolName, params));
      case Err(e) =>
        metrics.IncToolCall(toolName, Error);
        audit.Append(ExecutionFailed(toolName, e.message, TypeName(e.kind), params));
    }
    r := outcome;
  }
}
