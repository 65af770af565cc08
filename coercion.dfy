/** The result coercer: the casts the client applies to the untyped value the
    transport returns, written as fallible narrowings. */
module Coercion {
  import opened Wire

  /** `(Vector) response`: succeeds only on an XML-RPC array. */
  function AsVector(v: Value): (r: Result<seq<Value>>)
    ensures r.Success? <==> v.Array?
    ensures r.Failure? ==> r.error == CoercionError
  {
    match v
    case Array(items) => Success(items)
    case _ => Failure(CoercionError)
  }

  /** `(String) response`: succeeds only on an XML-RPC string. */
  function AsString(v: Value): (r: Result<string>)
    ensures r.Success? <==> v.Text?
    ensures r.Failure? ==> r.error == CoercionError
  {
    match v
    case Text(s) => Success(s)
    case _ => Failure(CoercionError)
  }

  /** A transport fault surfaces as a `TransportError` carrying the fault. */
  function FaultError(reply: Reply): Error
    requires reply.Fault?
  {
    TransportError(reply.code, reply.message)
  }

  /** Outcome of a list-returning procedure: the fault, the array, or a
      coercion failure; the items are handed back in the order received. */
  function VectorResult(reply: Reply): (r: Result<seq<Value>>)
    ensures r.Success? <==> reply.Returned? && reply.value.Array?
    ensures r.Success? ==> reply == Returned(Array(r.value))
    ensures reply.Fault? ==> r == Failure(TransportError(reply.code, reply.message))
    ensures reply.Returned? && !reply.value.Array? ==> r == Failure(CoercionError)
  {
    match reply
    case Fault(_, _) => Failure(FaultError(reply))
    case Returned(v) => AsVector(v)
  }

  /** Outcome of an identifier-returning procedure. */
  function StringResult(reply: Reply): (r: Result<string>)
    ensures r.Success? <==> reply.Returned? && reply.value.Text?
    ensures r.Success? ==> reply == Returned(Text(r.value))
    ensures reply.Fault? ==> r == Failure(TransportError(reply.code, reply.message))
    ensures reply.Returned? && !reply.value.Text? ==> r == Failure(CoercionError)
  {
    match reply
    case Fault(_, _) => Failure(FaultError(reply))
    case Returned(v) => AsString(v)
  }

  /** Outcome of a passthrough procedure: whatever was returned, unnarrowed. */
  function ObjectResult(reply: Reply): (r: Result<Value>)
    ensures r.Success? <==> reply.Returned?
    ensures r.Success? ==> reply == Returned(r.value)
    ensures reply.Fault? ==> r == Failure(TransportError(reply.code, reply.message))
  {
    match reply
    case Fault(_, _) => Failure(FaultError(reply))
    case Returned(v) => Success(v)
  }

  /** Narrowing is a left inverse of embedding, and the only value that
      narrows to a given list or string is that list or string. */
  lemma NarrowingInvertsEmbedding(v: Value, items: seq<Value>, s: string)
    ensures AsVector(v) == Success(items) <==> v == Array(items)
    ensures AsString(v) == Success(s) <==> v == Text(s)
  {
  }
}
