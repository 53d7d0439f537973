/** Classification of a response into an expected result, a parsed error, or neither, as
    done before the result is handed back to the caller. `OK_STATUS` (which statuses count
    as successful) belongs to `HttpClient` and is a parameter here; so are the two
    converters, which read a response and either produce an optional value or throw. */
module ResultOrErrorProcessors {
  import opened Wrappers

  /** A response as far as the classification reads it: its status code and whether the
      underlying response is a `MappedTransportErrorResponse` (a transport failure turned
      into a synthetic status). */
  datatype Response = Response(statusCode: int, isMappedTransportError: bool)

  /** What a converter does with a response. */
  datatype Conversion<V> =
    | Converted(value: Option<V>)
    | ThrewClientResponseException
    | ThrewOther

  /** Which statuses get their body parsed as an error: by default every status that is
      not `OK_STATUS`, or exactly the statuses of a set given to `forStatus`. */
  datatype ErrorStatus = NotOk | OneOf(codes: set<int>)

  predicate IsErrorStatus(okStatus: int -> bool, errorStatus: ErrorStatus, code: int)
  {
    match errorStatus
    case NotOk => !okStatus(code)
    case OneOf(codes) => code in codes
  }

  /** The exceptions `forStatus` and `wrapResponseAndError` let escape. */
  datatype Thrown =
    | IllegalArgument
    | ClientResponseException
    | ResponseConverterException

  datatype ResultOrErrorWithResponse<T, E> = ResultOrErrorWithResponse(value: Option<T>, errorValue: Option<E>,
                                                                       response: Response)

  datatype ResultOrErrorWithStatus<T, E> = ResultOrErrorWithStatus(value: Option<T>, errorValue: Option<E>,
                                                                   statusCode: int)

  /** `ResultOrErrorWithResponse.hideResponse`: keeps the status code only. */
  function HideResponse<T, E>(w: ResultOrErrorWithResponse<T, E>): (r: ResultOrErrorWithStatus<T, E>)
    ensures r.value == w.value && r.errorValue == w.errorValue && r.statusCode == w.response.statusCode
  {
    ResultOrErrorWithStatus(w.value, w.errorValue, w.response.statusCode)
  }

  /** The calls made on the request's debug listener. */
  datatype DebugEvent<T, E> =
    | ResponseConverted(value: Option<T>)
    | ErrorConverted(errorValue: Option<E>)
    | ConverterProblem
    | ProcessingFinished

  /** What `parseError` does: run the error converter only for an error status that is not
      a mapped transport error; otherwise no error value. */
  function ParseError<E>(okStatus: int -> bool, errorStatus: ErrorStatus, convertError: Response -> Conversion<E>,
                         response: Response): (c: Conversion<E>)
    ensures IsErrorStatus(okStatus, errorStatus, response.statusCode) && !response.isMappedTransportError
            ==> c == convertError(response)
    ensures !IsErrorStatus(okStatus, errorStatus, response.statusCode) || response.isMappedTransportError
            ==> c == Converted(None)
  {
    if IsErrorStatus(okStatus, errorStatus, response.statusCode) && !response.isMappedTransportError then
      convertError(response)
    else
      Converted(None)
  }

  /** The outcome of `wrapResponseAndError`: the wrapper, or the exception thrown. */
  function Wrap<T, E>(okStatus: int -> bool, errorStatus: ErrorStatus, convert: Response -> Conversion<T>,
                      convertError: Response -> Conversion<E>, response: Response)
    : (r: Result<ResultOrErrorWithResponse<T, E>, Thrown>)
    ensures r.Success? ==> r.value.response == response
    ensures r.Failure? ==> r.error == ClientResponseException || r.error == ResponseConverterException
  {
    var c: Conversion<T> := if okStatus(response.statusCode) then convert(response) else Converted(None);
    var ce: Conversion<E> := if okStatus(response.statusCode) then Converted(None)
                             else ParseError(okStatus, errorStatus, convertError, response);
    if c.ThrewClientResponseException? || ce.ThrewClientResponseException? then Failure(ClientResponseException)
    else if c.ThrewOther? || ce.ThrewOther? then Failure(ResponseConverterException)
    else Success(ResultOrErrorWithResponse(c.value, ce.value, response))
  }

  /** The debug calls `wrapResponseAndError` makes, in order. */
  function WrapDebugEvents<T, E>(okStatus: int -> bool, errorStatus: ErrorStatus, convert: Response -> Conversion<T>,
                                 convertError: Response -> Conversion<E>, response: Response)
    : (es: seq<DebugEvent<T, E>>)
    ensures |es| > 0 && es[|es| - 1] == ProcessingFinished
    ensures |es| <= 2 && ProcessingFinished !in es[..|es| - 1]
  {
    var converted :=
      if okStatus(response.statusCode) then
        match convert(response)
        case Converted(v) => [ResponseConverted(v)]
        case ThrewClientResponseException => []
        case ThrewOther => [ConverterProblem]
      else
        match ParseError(okStatus, errorStatus, convertError, response)
        case Converted(e) => [ErrorConverted(e)]
        case ThrewClientResponseException => []
        case ThrewOther => [ConverterProblem];
    converted + [ProcessingFinished]
  }

  class ResultOrErrorProcessor<T, E> {
    /** `HttpClient.OK_STATUS`. */
    const okStatus: int -> bool
    const convert: Response -> Conversion<T>
    const convertError: Response -> Conversion<E>
    var errorStatus: ErrorStatus
    /** Every call made on the debug listener, in order. */
    var debugEvents: seq<DebugEvent<T, E>>

    /** No status `forStatus` accepted is an OK status. */
    ghost predicate Valid()
      reads this
    {
      errorStatus.OneOf? ==> forall c :: c in errorStatus.codes ==> !okStatus(c)
    }

    constructor (okStatus: int -> bool, convert: Response -> Conversion<T>, convertError: Response -> Conversion<E>)
      ensures Valid()
      ensures this.okStatus == okStatus && this.convert == convert && this.convertError == convertError
      ensures errorStatus == NotOk && debugEvents == []
    {
      this.okStatus := okStatus;
      this.convert := convert;
      this.convertError := convertError;
      errorStatus := NotOk;
      debugEvents := [];
    }

    /** `forStatus(Set)`: refuses any set holding an OK status, leaving the error statuses as
        they were; otherwise the error statuses become exactly that set. */
    method ForStatuses(statusCodes: set<int>) returns (r: Result<(), Thrown>)
      requires Valid()
      modifies this`errorStatus
      ensures Valid()
      ensures (exists c :: c in statusCodes && okStatus(c)) <==> r == Failure(IllegalArgument)
      ensures r.Failure? ==> errorStatus == old(errorStatus)
      ensures r.Success? ==> errorStatus == OneOf(statusCodes)
    {
      if exists c :: c in statusCodes && okStatus(c) {
        return Failure(IllegalArgument);
      }
      errorStatus := OneOf(statusCodes);
      return Success(());
    }

    /** `forStatus(int)`: the one-element set. */
    method ForStatus(status: int) returns (r: Result<(), Thrown>)
      requires Valid()
      modifies this`errorStatus
      ensures Valid()
      ensures okStatus(status) <==> r == Failure(IllegalArgument)
      ensures r.Failure? ==> errorStatus == old(errorStatus)
      ensures r.Success? ==> errorStatus == OneOf({status})
    {
      r := ForStatuses({status});
    }

    method WrapResponseAndError(response: Response) returns (r: Result<ResultOrErrorWithResponse<T, E>, Thrown>)
      modifies this`debugEvents
      ensures r == Wrap(okStatus, errorStatus, convert, convertError, response)
      ensures debugEvents == old(debugEvents) + WrapDebugEvents(okStatus, errorStatus, convert, convertError, response)
    {
      if okStatus(response.statusCode) {
        match convert(response)
        case Converted(value) =>
          debugEvents := debugEvents + [ResponseConverted(value)];
          r := Success(ResultOrErrorWithResponse(value, None, response));
        case ThrewClientResponseException =>
          r := Failure(ClientResponseException);
        case ThrewOther =>
          debugEvents := debugEvents + [ConverterProblem];
          r := Failure(ResponseConverterException);
      } else {
        var parsed := ParseError(okStatus, errorStatus, convertError, response);
        match parsed
        case Converted(errorValue) =>
          debugEvents := debugEvents + [ErrorConverted(errorValue)];
          r := Success(ResultOrErrorWithResponse(None, errorValue, response));
        case ThrewClientResponseException =>
          r := Failure(ClientResponseException);
        case ThrewOther =>
          debugEvents := debugEvents + [ConverterProblem];
          r := Failure(ResponseConverterException);
      }
      // the finally block
      debugEvents := debugEvents + [ProcessingFinished];
    }
  }

  /** By default a status is parsed as an error exactly when it is not an OK status. */
  lemma DefaultErrorStatusIsNotOk(okStatus: int -> bool, code: int)
    ensures IsErrorStatus(okStatus, NotOk, code) <==> !okStatus(code)
  {
  }

  /** While the processor is valid, no OK status is ever an error status. */
  lemma ErrorStatusNeverOk<T, E>(p: ResultOrErrorProcessor<T, E>, code: int)
    requires p.Valid()
    ensures IsErrorStatus(p.okStatus, p.errorStatus, code) ==> !p.okStatus(code)
  {
  }

  /** An OK response yields the converted value and no error; a response the converter
      accepts is never an error. */
  lemma OkResponseYieldsValue<T, E>(okStatus: int -> bool, errorStatus: ErrorStatus, convert: Response -> Conversion<T>,
                                    convertError: Response -> Conversion<E>, response: Response)
    requires okStatus(response.statusCode)
    ensures convert(response).Converted? ==>
      Wrap(okStatus, errorStatus, convert, convertError, response)
        == Success(ResultOrErrorWithResponse(convert(response).value, None, response))
    ensures convert(response).ThrewClientResponseException? ==>
      Wrap(okStatus, errorStatus, convert, convertError, response) == Failure(ClientResponseException)
    ensures convert(response).ThrewOther? ==>
      Wrap(okStatus, errorStatus, convert, convertError, response) == Failure(ResponseConverterException)
  {
  }

  /** A non-OK response yields no value; its error is parsed only for an error status that
      is not a mapped transport error, and is empty otherwise. */
  lemma NonOkResponseYieldsError<T, E>(okStatus: int -> bool, errorStatus: ErrorStatus,
                                       convert: Response -> Conversion<T>, convertError: Response -> Conversion<E>,
                                       response: Response)
    requires !okStatus(response.statusCode)
    ensures var r := Wrap(okStatus, errorStatus, convert, convertError, response);
      && (r.Success? ==> r.value.value.None? && r.value.response == response)
      && (!IsErrorStatus(okStatus, errorStatus, response.statusCode) || response.isMappedTransportError
          ==> r == Success(ResultOrErrorWithResponse(None, None, response)))
      && (IsErrorStatus(okStatus, errorStatus, response.statusCode) && !response.isMappedTransportError
          && convertError(response).Converted?
          ==> r == Success(ResultOrErrorWithResponse(None, convertError(response).value, response)))
  {
  }

  /** Value and error are never both present, and each only under its own condition. */
  lemma NeverBothValueAndError<T, E>(okStatus: int -> bool, errorStatus: ErrorStatus,
                                     convert: Response -> Conversion<T>, convertError: Response -> Conversion<E>,
                                     response: Response)
    ensures var r := Wrap(okStatus, errorStatus, convert, convertError, response);
      r.Success? ==>
        && !(r.value.value.Some? && r.value.errorValue.Some?)
        && (r.value.value.Some? ==> okStatus(response.statusCode))
        && (r.value.errorValue.Some? ==>
              !okStatus(response.statusCode) && IsErrorStatus(okStatus, errorStatus, response.statusCode)
              && !response.isMappedTransportError)
  {
  }

  /** Whatever happens, processing ends with `onProcessingFinished`; `onConverterProblem`
      is signalled exactly when a converter failure is wrapped in a
      `ResponseConverterException`, a `ClientResponseException` passes through as it is, and
      a successful conversion is reported once. */
  lemma DebugEventsMatchOutcome<T, E>(okStatus: int -> bool, errorStatus: ErrorStatus,
                                      convert: Response -> Conversion<T>, convertError: Response -> Conversion<E>,
                                      response: Response)
    ensures var es := WrapDebugEvents(okStatus, errorStatus, convert, convertError, response);
            var r := Wrap(okStatus, errorStatus, convert, convertError, response);
      && es[|es| - 1] == ProcessingFinished
      && (ConverterProblem in es <==> r == Failure(ResponseConverterException))
      && (r == Failure(ClientResponseException) <==> es == [ProcessingFinished])
      && (r.Success? ==>
            es == (if okStatus(response.statusCode) then [ResponseConverted(r.value.value)]
                   else [ErrorConverted(r.value.errorValue)]) + [ProcessingFinished])
  {
  }
}
