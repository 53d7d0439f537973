/** The last step of the error-checking builder applied to a result-or-error: choosing
    what happens when the error is present, either falling back to a default value or
    failing with a fixed HTTP status code, or failing with the remote call's own status.
    The selector's error message and its accumulated predicates belong to the abstract
    base selector, which is not part of this model; they are carried along unchanged. */
module OperationSelectors {
  import opened Wrappers
  import opened ResultOrErrorProcessors

  /** The `javax.ws.rs.core.Response.Status` codes the selector uses. */
  const BAD_REQUEST: int := 400
  const FORBIDDEN: int := 403
  const NOT_FOUND: int := 404
  const CONFLICT: int := 409
  const INTERNAL_SERVER_ERROR: int := 500
  const BAD_GATEWAY: int := 502
  const GATEWAY_TIMEOUT: int := 504

  datatype Selector<T, E, P> = Selector(resultOrErrorWithStatus: ResultOrErrorWithStatus<T, E>, errorMessage: string,
                                        params: seq<string>, predicates: seq<P>)

  /** `ApplyResultOrErrorOperation` as constructed: a status code to fail with (none means
      "use the response's own status") and a default value to fall back to. */
  datatype Operation<T, E, P> = Operation(resultOrErrorWithStatus: ResultOrErrorWithStatus<T, E>, code: Option<int>,
                                          errorMessage: string, predicates: seq<P>, defaultValue: Option<T>)

  /** The selector's own fields, handed to the operation unchanged. */
  ghost predicate KeepsSelector<T, E, P>(s: Selector<T, E, P>, op: Operation<T, E, P>)
  {
    op.resultOrErrorWithStatus == s.resultOrErrorWithStatus && op.errorMessage == s.errorMessage
    && op.predicates == s.predicates
  }

  function SetDefault<T, E, P>(s: Selector<T, E, P>, defaultValue: T): (op: Operation<T, E, P>)
    ensures KeepsSelector(s, op)
    ensures op.code == None && op.defaultValue == Some(defaultValue)
  {
    Operation(s.resultOrErrorWithStatus, None, s.errorMessage, s.predicates, Some(defaultValue))
  }

  /** `setDefault(Supplier)`: the supplier is asked once, now, and its value is stored. */
  function SetDefaultFrom<T, E, P>(s: Selector<T, E, P>, supplier: () -> T): (op: Operation<T, E, P>)
    ensures KeepsSelector(s, op)
    ensures op == SetDefault(s, supplier())
  {
    Operation(s.resultOrErrorWithStatus, None, s.errorMessage, s.predicates, Some(supplier()))
  }

  function ThrowWithCode<T, E, P>(s: Selector<T, E, P>, code: int): (op: Operation<T, E, P>)
    ensures KeepsSelector(s, op)
    ensures op.code == Some(code) && op.defaultValue == None
  {
    Operation(s.resultOrErrorWithStatus, Some(code), s.errorMessage, s.predicates, None)
  }

  function ThrowBadGateway<T, E, P>(s: Selector<T, E, P>): (op: Operation<T, E, P>)
    ensures KeepsSelector(s, op) && op.code == Some(502) && op.defaultValue == None
  {
    ThrowWithCode(s, BAD_GATEWAY)
  }

  function ThrowGatewayTimeout<T, E, P>(s: Selector<T, E, P>): (op: Operation<T, E, P>)
    ensures KeepsSelector(s, op) && op.code == Some(504) && op.defaultValue == None
  {
    ThrowWithCode(s, GATEWAY_TIMEOUT)
  }

  function ThrowInternalServerError<T, E, P>(s: Selector<T, E, P>): (op: Operation<T, E, P>)
    ensures KeepsSelector(s, op) && op.code == Some(500) && op.defaultValue == None
  {
    ThrowWithCode(s, INTERNAL_SERVER_ERROR)
  }

  function ThrowConflict<T, E, P>(s: Selector<T, E, P>): (op: Operation<T, E, P>)
    ensures KeepsSelector(s, op) && op.code == Some(409) && op.defaultValue == None
  {
    ThrowWithCode(s, CONFLICT)
  }

  function ThrowForbidden<T, E, P>(s: Selector<T, E, P>): (op: Operation<T, E, P>)
    ensures KeepsSelector(s, op) && op.code == Some(403) && op.defaultValue == None
  {
    ThrowWithCode(s, FORBIDDEN)
  }

  function ThrowNotFound<T, E, P>(s: Selector<T, E, P>): (op: Operation<T, E, P>)
    ensures KeepsSelector(s, op) && op.code == Some(404) && op.defaultValue == None
  {
    ThrowWithCode(s, NOT_FOUND)
  }

  function ThrowBadRequest<T, E, P>(s: Selector<T, E, P>): (op: Operation<T, E, P>)
    ensures KeepsSelector(s, op) && op.code == Some(400) && op.defaultValue == None
  {
    ThrowWithCode(s, BAD_REQUEST)
  }

  /** Neither a code nor a default: the operation fails with the remote status. */
  function ProxyStatusCode<T, E, P>(s: Selector<T, E, P>): (op: Operation<T, E, P>)
    ensures KeepsSelector(s, op) && op.code == None && op.defaultValue == None
  {
    Operation(s.resultOrErrorWithStatus, None, s.errorMessage, s.predicates, None)
  }

  /** The selector's choices in source order: the two `setDefault`s, the seven `throwX`s
      and `proxyStatusCode`. */
  function Choices<T, E, P>(s: Selector<T, E, P>, defaultValue: T, supplier: () -> T): (ops: seq<Operation<T, E, P>>)
    ensures |ops| == 10
  {
    [SetDefault(s, defaultValue), SetDefaultFrom(s, supplier),
     ThrowBadGateway(s), ThrowGatewayTimeout(s), ThrowInternalServerError(s), ThrowConflict(s),
     ThrowForbidden(s), ThrowNotFound(s), ThrowBadRequest(s), ProxyStatusCode(s)]
  }

  /** Only the two `setDefault`s give the operation a default value, and they give it the
      value asked for; only the seven `throwX`s fix a status code; `proxyStatusCode` fixes
      neither. No choice sets both, and each keeps the selector's own fields. */
  lemma OnlySetDefaultGivesDefault<T, E, P>(s: Selector<T, E, P>, defaultValue: T, supplier: () -> T)
    ensures var ops := Choices(s, defaultValue, supplier);
      && (forall i :: 0 <= i < |ops| ==> KeepsSelector(s, ops[i]))
      && (forall i :: 0 <= i < |ops| ==> (ops[i].defaultValue.Some? <==> i < 2))
      && (forall i :: 0 <= i < |ops| ==> (ops[i].code.Some? <==> 2 <= i < 9))
      && ops[0].defaultValue == Some(defaultValue) && ops[1].defaultValue == Some(supplier())
  {
  }
}
