/** The shared error taxonomy of the Go services: string error codes, their HTTP status and
    their retryable / user-error classification, the text of an error, and the structured
    error object that services stamp with their own name and callers enrich with context. */
module Errors {
  import opened Common

  // ---------------------------------------------------------------------------------------
  // Error codes

  // Transaction service
  const ErrInsufficientFunds := "INSUFFICIENT_FUNDS"
  const ErrInvalidTransaction := "INVALID_TRANSACTION"
  const ErrTransactionFailed := "TRANSACTION_FAILED"
  const ErrTransactionNotFound := "TRANSACTION_NOT_FOUND"
  const ErrDuplicateTransaction := "DUPLICATE_TRANSACTION"
  // Fraud detection
  const ErrFraudDetectionFailed := "FRAUD_DETECTION_FAILED"
  const ErrHighRiskTransaction := "HIGH_RISK_TRANSACTION"
  const ErrModelUnavailable := "MODEL_UNAVAILABLE"
  const ErrAnalysisTimeout := "ANALYSIS_TIMEOUT"
  // Token management
  const ErrTokenNotFound := "TOKEN_NOT_FOUND"
  const ErrTokenFrozen := "TOKEN_FROZEN"
  const ErrInvalidTokenState := "INVALID_TOKEN_STATE"
  const ErrTokenTransferFailed := "TOKEN_TRANSFER_FAILED"
  // Reversibility
  const ErrCaseNotFound := "CASE_NOT_FOUND"
  const ErrReversalFailed := "REVERSAL_FAILED"
  const ErrInvalidCaseState := "INVALID_CASE_STATE"
  const ErrReversalTimeout := "REVERSAL_TIMEOUT"
  // Compliance
  const ErrKYCFailed := "KYC_FAILED"
  const ErrAMLViolation := "AML_VIOLATION"
  const ErrComplianceCheck := "COMPLIANCE_CHECK_FAILED"
  const ErrRegulatoryReporting := "REGULATORY_REPORTING_FAILED"
  // System
  const ErrDatabaseConnection := "DATABASE_CONNECTION_ERROR"
  const ErrServiceUnavailable := "SERVICE_UNAVAILABLE"
  const ErrRateLimitExceeded := "RATE_LIMIT_EXCEEDED"
  const ErrAuthenticationFailed := "AUTHENTICATION_FAILED"
  const ErrAuthorizationFailed := "AUTHORIZATION_FAILED"

  /** Every code the library declares. */
  const AllCodes: set<string> := {
    ErrInsufficientFunds, ErrInvalidTransaction, ErrTransactionFailed, ErrTransactionNotFound,
    ErrDuplicateTransaction, ErrFraudDetectionFailed, ErrHighRiskTransaction,
    ErrModelUnavailable, ErrAnalysisTimeout, ErrTokenNotFound, ErrTokenFrozen,
    ErrInvalidTokenState, ErrTokenTransferFailed, ErrCaseNotFound, ErrReversalFailed,
    ErrInvalidCaseState, ErrReversalTimeout, ErrKYCFailed, ErrAMLViolation, ErrComplianceCheck,
    ErrRegulatoryReporting, ErrDatabaseConnection, ErrServiceUnavailable, ErrRateLimitExceeded,
    ErrAuthenticationFailed, ErrAuthorizationFailed}

  // Service names stamped by the per-service constructors
  const TransactionServiceName := "transaction-service"
  const FraudDetectionServiceName := "fraud-detection"
  const TokenManagementServiceName := "token-management"
  const ReversibilityServiceName := "reversibility-service"
  const ComplianceServiceName := "compliance-service"

  // ---------------------------------------------------------------------------------------
  // Classification

  const RetryableCodes: set<string> := {
    ErrServiceUnavailable, ErrDatabaseConnection, ErrAnalysisTimeout, ErrModelUnavailable,
    ErrRegulatoryReporting}

  const UserErrorCodes: set<string> := {
    ErrInsufficientFunds, ErrInvalidTransaction, ErrDuplicateTransaction, ErrTokenFrozen,
    ErrInvalidTokenState, ErrInvalidCaseState, ErrKYCFailed, ErrAuthenticationFailed,
    ErrAuthorizationFailed}

  /** The codes with an explicit HTTP status; every other code answers 500. */
  const StatusTable: map<string, int> := map[
    ErrInsufficientFunds := 402,
    ErrInvalidTransaction := 400,
    ErrTransactionNotFound := 404,
    ErrDuplicateTransaction := 409,
    ErrHighRiskTransaction := 403,
    ErrTokenFrozen := 423,
    ErrRateLimitExceeded := 429,
    ErrAuthenticationFailed := 401,
    ErrAuthorizationFailed := 403,
    ErrServiceUnavailable := 503,
    ErrDatabaseConnection := 503]

  /** `IsRetryable`: only failures of the platform are worth retrying; none of them is the
      caller's fault. */
  predicate IsRetryableCode(code: string): (b: bool)
    ensures b ==> code !in UserErrorCodes
  {
    code in RetryableCodes
  }

  /** `IsUserError`: the caller's failures; none of them is worth retrying. */
  predicate IsUserErrorCode(code: string): (b: bool)
    ensures b ==> code !in RetryableCodes
  {
    code in UserErrorCodes
  }

  /** The HTTP status of an error code: a client error (4xx) or an unavailable service (503)
      for a listed code, and 500 exactly for the codes the table does not list. */
  function HTTPStatus(code: string): (s: int)
    ensures 400 <= s <= 503
    ensures s == 500 <==> code !in StatusTable
    ensures s == 503 <==> code == ErrServiceUnavailable || code == ErrDatabaseConnection
  {
    if code in StatusTable then StatusTable[code] else 500
  }

  /** No code is both worth retrying and the caller's fault. */
  lemma RetryableIsNotUserError(code: string)
    ensures !(IsRetryableCode(code) && IsUserErrorCode(code))
  {
  }

  /** A retryable error is always reported as a server-side status. */
  lemma RetryableIsServerStatus(code: string)
    requires IsRetryableCode(code)
    ensures HTTPStatus(code) >= 500
  {
  }

  /** The user errors that are nevertheless reported as 500: exactly the token-state,
      case-state and KYC failures, which the status table does not list. */
  lemma UserErrorsReportedAsServerErrors(code: string)
    requires IsUserErrorCode(code)
    ensures HTTPStatus(code) >= 500 <==>
              code == ErrInvalidTokenState || code == ErrInvalidCaseState || code == ErrKYCFailed
  {
  }

  // ---------------------------------------------------------------------------------------
  // The text of an error

  /** `Error()`: "[service] code: message". */
  function ErrorText(service: string, code: string, message: string): (s: string)
    ensures |s| == |service| + |code| + |message| + 5
    ensures s[0] == '[' && s[..|service| + 1][1..] == service
  {
    "[" + service + "] " + code + ": " + message
  }

  /** The index of the first `c` in `s`, if any. */
  function IndexOf(s: string, c: char): (r: Option<nat>)
    ensures r.Some? ==> r.value < |s| && s[r.value] == c && c !in s[..r.value]
    ensures r.None? ==> c !in s
  {
    if s == [] then None
    else if s[0] == c then Some(0)
    else
      match IndexOf(s[1..], c)
      case None => None
      case Some(i) => assert s[1..][..i] == s[1..i + 1]; Some(i + 1)
  }

  /** Reads "[service] code: message" back into its three parts. */
  function ParseErrorText(s: string): (r: Option<(string, string, string)>)
  {
    if |s| < 1 || s[0] != '[' then None
    else
      match IndexOf(s[1..], ']')
      case None => None
      case Some(i) =>
        match ParseCodeAndMessage(s[i + 2..])
        case None => None
        case Some((code, message)) => Some((s[1..i + 1], code, message))
  }

  /** Reads " code: message", what follows the bracketed service name. */
  function ParseCodeAndMessage(rest: string): Option<(string, string)> {
    if |rest| < 1 || rest[0] != ' ' then None
    else
      match IndexOf(rest[1..], ':')
      case None => None
      case Some(j) =>
        var tail := rest[j + 2..];
        if |tail| < 1 || tail[0] != ' ' then None
        else Some((rest[1..j + 1], tail[1..]))
  }

  /** The error text keeps all three parts: a service name without ']' and a code without ':'
      (every declared code qualifies) are recovered from it. */
  lemma ErrorTextRoundTrip(service: string, code: string, message: string)
    requires ']' !in service && ':' !in code
    ensures ParseErrorText(ErrorText(service, code, message)) == Some((service, code, message))
  {
    var rest := " " + code + ": " + message;
    var s := ErrorText(service, code, message);
    assert s == "[" + (service + ("]" + rest));
    assert s[1..] == service + ("]" + rest);
    IndexOfPrefix(service, ']', "]" + rest);
    assert s[|service| + 2..] == rest;
    assert s[1..|service| + 1] == service;
    CodeAndMessageRoundTrip(code, message);
  }

  lemma CodeAndMessageRoundTrip(code: string, message: string)
    requires ':' !in code
    ensures ParseCodeAndMessage(" " + code + ": " + message) == Some((code, message))
  {
    var rest := " " + code + ": " + message;
    assert rest[1..] == code + (":" + " " + message);
    IndexOfPrefix(code, ':', ":" + " " + message);
    assert rest[|code| + 2..] == " " + message;
    assert rest[1..|code| + 1] == code;
  }

  /** Looking for `c` past a prefix that does not hold it finds the first `c` of the suffix. */
  lemma {:induction false} IndexOfPrefix(p: string, c: char, q: string)
    requires c !in p && |q| > 0 && q[0] == c
    ensures IndexOf(p + q, c) == Some(|p|)
  {
    if p != [] {
      assert (p + q)[1..] == p[1..] + q;
      IndexOfPrefix(p[1..], c, q);
    }
  }

  /** Distinct (service, code, message) triples give distinct texts under the same side
      conditions. */
  lemma ErrorTextInjective(s1: string, c1: string, m1: string, s2: string, c2: string,
                           m2: string)
    requires ']' !in s1 && ':' !in c1 && ']' !in s2 && ':' !in c2
    requires ErrorText(s1, c1, m1) == ErrorText(s2, c2, m2)
    ensures s1 == s2 && c1 == c2 && m1 == m2
  {
    ErrorTextRoundTrip(s1, c1, m1);
    ErrorTextRoundTrip(s2, c2, m2);
  }

  // ---------------------------------------------------------------------------------------
  // The structured error

  /** The service, code and message an error carries, as a value: what the validators of the
      services return. */
  datatype Fault = Fault(service: string, code: string, message: string)

  /** A Go `(value, error)` pair in which exactly one side is set. */
  datatype Result<T> = Ok(value: T) | Err(fault: Fault)

  /** `EchoPayError`. The cause is the wrapped error's text; detail values are kept as text. */
  class EchoPayError {
    const code: string
    const message: string
    const service: string
    const timestamp: int
    const cause: Option<string>
    var traceId: string
    var userId: string
    var requestId: string
    var details: map<string, string>

    /** `NewError`: no cause and no context yet. */
    constructor New(code: string, message: string, service: string, now: int)
      ensures this.code == code && this.message == message && this.service == service
      ensures timestamp == now && cause.None?
      ensures traceId == "" && userId == "" && requestId == "" && details == map[]
    {
      this.code := code;
      this.message := message;
      this.service := service;
      timestamp := now;
      cause := None;
      traceId := "";
      userId := "";
      requestId := "";
      details := map[];
    }

    /** `WrapError`: as `NewError`, keeping the given cause. */
    constructor Wrap(err: Option<string>, code: string, message: string, service: string,
                     now: int)
      ensures this.code == code && this.message == message && this.service == service
      ensures timestamp == now && cause == err
      ensures traceId == "" && userId == "" && requestId == "" && details == map[]
    {
      this.code := code;
      this.message := message;
      this.service := service;
      timestamp := now;
      cause := err;
      traceId := "";
      userId := "";
      requestId := "";
      details := map[];
    }

    function AsFault(): Fault {
      Fault(service, code, message)
    }

    /** `Error()`: the text from which the service, code and message read back, for a
        service without a closing bracket and a code without a colon. */
    function Error(): (s: string)
      ensures ']' !in service && ':' !in code ==>
                ParseErrorText(s) == Some((service, code, message))
    {
      assert ']' !in service && ':' !in code ==>
               ParseErrorText(ErrorText(service, code, message)) ==
                 Some((service, code, message)) by {
        if ']' !in service && ':' !in code {
          ErrorTextRoundTrip(service, code, message);
        }
      }
      ErrorText(service, code, message)
    }

    predicate IsRetryable() {
      IsRetryableCode(code)
    }

    predicate IsUserError() {
      IsUserErrorCode(code)
    }

    function GetHTTPStatus(): int {
      HTTPStatus(code)
    }

    /** Sets the trace, user and request ids in place and hands back the same error. */
    method WithContext(traceId: string, userId: string, requestId: string)
      returns (e: EchoPayError)
      modifies this`traceId, this`userId, this`requestId
      ensures e == this
      ensures this.traceId == traceId && this.userId == userId && this.requestId == requestId
      ensures details == old(details)
    {
      this.traceId := traceId;
      this.userId := userId;
      this.requestId := requestId;
      e := this;
    }

    /** Replaces the details in place and hands back the same error. */
    method WithDetails(details: map<string, string>) returns (e: EchoPayError)
      modifies this`details
      ensures e == this && this.details == details
    {
      this.details := details;
      e := this;
    }
  }

  method NewTransactionError(code: string, message: string, now: int) returns (e: EchoPayError)
    ensures fresh(e) && e.AsFault() == Fault(TransactionServiceName, code, message)
    ensures e.timestamp == now && e.cause.None?
  {
    e := new EchoPayError.New(code, message, TransactionServiceName, now);
  }

  method NewFraudDetectionError(code: string, message: string, now: int)
    returns (e: EchoPayError)
    ensures fresh(e) && e.AsFault() == Fault(FraudDetectionServiceName, code, message)
    ensures e.timestamp == now && e.cause.None?
  {
    e := new EchoPayError.New(code, message, FraudDetectionServiceName, now);
  }

  method NewTokenManagementError(code: string, message: string, now: int)
    returns (e: EchoPayError)
    ensures fresh(e) && e.AsFault() == Fault(TokenManagementServiceName, code, message)
    ensures e.timestamp == now && e.cause.None?
  {
    e := new EchoPayError.New(code, message, TokenManagementServiceName, now);
  }

  method NewReversibilityError(code: string, message: string, now: int)
    returns (e: EchoPayError)
    ensures fresh(e) && e.AsFault() == Fault(ReversibilityServiceName, code, message)
    ensures e.timestamp == now && e.cause.None?
  {
    e := new EchoPayError.New(code, message, ReversibilityServiceName, now);
  }

  method NewComplianceError(code: string, message: string, now: int) returns (e: EchoPayError)
    ensures fresh(e) && e.AsFault() == Fault(ComplianceServiceName, code, message)
    ensures e.timestamp == now && e.cause.None?
  {
    e := new EchoPayError.New(code, message, ComplianceServiceName, now);
  }

  /** The value a token-management validator reports, as `NewTokenManagementError` stamps it. */
  function TokenFault(code: string, message: string): Fault {
    Fault(TokenManagementServiceName, code, message)
  }

  /** The value a transaction-service validator reports, as `NewTransactionError` stamps it. */
  function TransactionFault(code: string, message: string): Fault {
    Fault(TransactionServiceName, code, message)
  }
}
