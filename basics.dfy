/** Small shared vocabulary: optional values, the failures the Java code raises
    as exceptions, and Java's signed byte. */
module Basics {

  datatype Option<+T> = None | Some(value: T)

  /** Why a run aborts. Each constructor stands for an exception the Java code throws. */
  datatype Error =
    | MissingField(field: string)          // JSONException from a getX on an absent key
    | InvalidSpawnerType(spawnerType: string)
    | InvalidAlgorithm(algorithm: string)
    | MissingBucket                         // NullPointerException: grid cell outside -1..50
    | TrackUnreadable                       // IOException from the track parser

  /** A failure-compatible result, so that `:-` propagates the first error. */
  datatype Result<+T> = Ok(value: T) | Err(error: Error) {
    predicate IsFailure() { Err? }

    function PropagateFailure<U>(): Result<U>
      requires Err?
    {
      Err(error)
    }

    function Extract(): T
      requires Ok?
    {
      value
    }
  }

  /** The value of a required field, or the error naming it. */
  function Required<T>(o: Option<T>, field: string): (r: Result<T>)
    ensures r.Ok? <==> o.Some?
    ensures r.Ok? ==> r.value == o.value
    ensures r.Err? ==> r.error == MissingField(field)
  {
    match o
    case Some(v) => Ok(v)
    case None => Err(MissingField(field))
  }

  /** Java's `byte`. */
  newtype int8 = x: int | -128 <= x < 128

  /** Java's narrowing cast `(byte) v`: keep the low eight bits, read them as two's complement. */
  function ToByte(v: int): (b: int8)
    ensures (b as int - v) % 256 == 0
    ensures -128 <= v < 128 ==> b as int == v
  {
    var low := v % 256;
    if low < 128 then low as int8 else (low - 256) as int8
  }
}
