/** Optional and fallible values, bytes and characters shared by every module. */
module Wrappers {
  datatype Option<+T> = None | Some(value: T)

  datatype Result<+T, +E> = Ok(value: T) | Err(error: E) {
    predicate IsFailure() { Err? }
    function PropagateFailure<U>(): Result<U, E> requires Err? { Err(error) }
    function Extract(): T requires Ok? { value }
  }

  /** How a port call ends: cleanly, without taking effect, or taking effect but reporting failure. */
  datatype Fault = Clean | NoEffect | LostReply

  /** The first item that satisfies a test. */
  function First<T>(items: seq<T>, test: T -> bool): (r: Option<T>)
    ensures r.None? <==> forall i :: 0 <= i < |items| ==> !test(items[i])
    ensures r.Some? ==>
      exists i :: 0 <= i < |items| && items[i] == r.value && test(r.value) && forall j :: 0 <= j < i ==> !test(items[j])
  {
    if items == [] then None else if test(items[0]) then Some(items[0]) else First(items[1..], test)
  }

  type Byte = b: nat | b < 256

  predicate Alphanumeric(c: char) { 'a' <= c <= 'z' || 'A' <= c <= 'Z' || '0' <= c <= '9' }

  /** White space as Unicode defines it. */
  predicate Whitespace(c: char) {
    || c in " \U{85}\U{a0}\U{1680}\U{2028}\U{2029}\U{202f}\U{205f}\U{3000}"
    || '\t' <= c <= '\r' || '\U{2000}' <= c <= '\U{200a}'
  }

  const U64_MAX: nat := 0xFFFF_FFFF_FFFF_FFFF
}
