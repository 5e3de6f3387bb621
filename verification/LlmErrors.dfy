/** The provider error taxonomy and which failures are worth another attempt. */
module LlmErrors {
  import opened Unicode

  datatype ErrorClass =
    | LLMProviderError
    | LLMRateLimitError
    | LLMTimeoutError
    | LLMServiceUnavailableError
    | LLMAuthenticationError
    | LLMBadRequestError
    | LLMContentFilterError
    | LLMConfigurationError

  datatype LlmError = LlmError(class_: ErrorClass, message: PyString)
  {
    function Code(): PyString {
      match class_
      case LLMProviderError => Py("llm_provider_error")
      case LLMRateLimitError => Py("llm_rate_limited")
      case LLMTimeoutError => Py("llm_timeout")
      case LLMServiceUnavailableError => Py("llm_unavailable")
      case LLMAuthenticationError => Py("llm_authentication_failed")
      case LLMBadRequestError => Py("llm_bad_request")
      case LLMContentFilterError => Py("llm_content_filtered")
      case LLMConfigurationError => Py("llm_configuration_error")
    }

    /** `isinstance(self, c)`: every class derives directly from the base class. */
    predicate IsInstance(c: ErrorClass) {
      class_ == c || c == LLMProviderError
    }
  }

  const RETRYABLE_ERRORS: seq<ErrorClass> := [LLMRateLimitError, LLMTimeoutError, LLMServiceUnavailableError]

  /** An unclassified transport failure, recognised by its exact type, or a transient one. */
  predicate IsRetryable(e: LlmError) {
    if e.class_ == LLMProviderError then true
    else exists c :: c in RETRYABLE_ERRORS && e.IsInstance(c)
  }

  /** Rate limits, timeouts, outages and unclassified failures are worth another attempt; rejected
      credentials, malformed or filtered requests and wrong configuration are not. */
  lemma RetryableExactly(e: LlmError)
    ensures IsRetryable(e) <==>
      e.class_ != LLMAuthenticationError && e.class_ != LLMBadRequestError
      && e.class_ != LLMContentFilterError && e.class_ != LLMConfigurationError
  {
    assert LLMRateLimitError in RETRYABLE_ERRORS && LLMTimeoutError in RETRYABLE_ERRORS;
    assert LLMServiceUnavailableError in RETRYABLE_ERRORS;
  }

  /** Clients can branch on the code: it tells the class. */
  lemma CodeTellsClass(e: LlmError, f: LlmError)
    ensures e.Code() == f.Code() <==> e.class_ == f.class_
  {
    CodeMarks(e);
    CodeMarks(f);
  }

  /** The codes differ in length, or in the fifth character. */
  lemma CodeMarks(e: LlmError)
    ensures |e.Code()| == match e.class_
      case LLMProviderError => 18
      case LLMRateLimitError => 16
      case LLMTimeoutError => 11
      case LLMServiceUnavailableError => 15
      case LLMAuthenticationError => 25
      case LLMBadRequestError => 15
      case LLMContentFilterError => 20
      case LLMConfigurationError => 23
    ensures e.class_ == LLMServiceUnavailableError ==> e.Code()[4] == 'u' as int
    ensures e.class_ == LLMBadRequestError ==> e.Code()[4] == 'b' as int
  {
  }
}
