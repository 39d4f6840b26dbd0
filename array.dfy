/** Fixed-length array helpers: `[T; N]::map`, and `arr_zip_map`, which fills
    a fresh, uninitialised buffer slot by slot from two arrays. No type
    parameter here asks for a default value, so every element type, an empty
    one included, is allowed. */
module Array {

  /** A slot of the output buffer: `None` is an uninitialised slot,
      `Some(o)` one that has been written with `o`. */
  datatype Slot<O> = None | Some(value: O)

  /** `[T; N]::map`: apply `f` to every element, in order. */
  function MapEach<T, U>(a: seq<T>, f: T -> U): (r: seq<U>)
    ensures |r| == |a|
    ensures forall i :: 0 <= i < |a| ==> r[i] == f(a[i])
  {
    seq(|a|, i requires 0 <= i < |a| => f(a[i]))
  }

  /** What iterating `a.zip(b)` and combining each pair yields: as many
      results as the shorter input has elements, the i-th combining `a[i]`
      and `b[i]`. (Arrays of the same length N give N results.) */
  function ZipWith<T, S, O>(a: seq<T>, b: seq<S>, f: (T, S) -> O): (r: seq<O>)
    ensures |r| == if |a| <= |b| then |a| else |b|
    ensures forall i :: 0 <= i < |r| ==> r[i] == f(a[i], b[i])
  {
    var n := if |a| <= |b| then |a| else |b|;
    seq(n, i requires 0 <= i < n => f(a[i], b[i]))
  }

  /** Every slot of the buffer has been written. */
  predicate AllWritten<O>(buf: seq<Slot<O>>)
  {
    forall i :: 0 <= i < |buf| ==> buf[i].Some?
  }

  /** Reading a buffer as a finished array: allowed only once every slot
      has been written, and then it yields the written values, in place. */
  function AssumeInit<O>(buf: seq<Slot<O>>): (r: seq<O>)
    requires AllWritten(buf)
    ensures |r| == |buf|
    ensures forall i :: 0 <= i < |buf| ==> buf[i] == Some(r[i])
  {
    if buf == [] then [] else [buf[0].value] + AssumeInit(buf[1..])
  }

  /** `arr_zip_map`: a fresh buffer of N uninitialised slots is filled in
      one pass, slot i receiving `f(a[i], b[i])`, and is read back as an
      array once every slot is written. `calls` counts the invocations of
      `f`: one per slot, so none at all when N = 0. */
  method ArrZipMap<T, S, O>(a: array<T>, b: array<S>, f: (T, S) -> O)
    returns (out: seq<O>, ghost calls: nat)
    requires a.Length == b.Length
    ensures |out| == a.Length
    ensures forall i :: 0 <= i < a.Length ==> out[i] == f(a[i], b[i])
    ensures out == ZipWith(a[..], b[..], f)
    ensures calls == a.Length
  {
    var n := a.Length;
    var data := new Slot<O>[n](_ => None);
    calls := 0;
    for k := 0 to n
      invariant calls == k
      invariant forall j :: 0 <= j < k ==> data[j] == Some(f(a[j], b[j]))
      invariant forall j :: k <= j < n ==> data[j] == None
    {
      data[k] := Some(f(a[k], b[k]));
      calls := calls + 1;
    }
    out := AssumeInit(data[..]);
  }
}
