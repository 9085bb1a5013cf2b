/** The growable float buffer that collects marching-cubes vertices (CustomBuffer). */
module Buffers {
  import opened Wrappers

  /** Backing store `data` (its length is the capacity) and the number `len` of used slots. */
  datatype Buffer = Buffer(data: seq<real>, len: nat)

  predicate Valid(b: Buffer) {
    b.len <= |b.data|
  }

  function Capacity(b: Buffer): nat {
    |b.data|
  }

  /** The used prefix: what `view(0, len)` exposes. */
  function Contents(b: Buffer): (s: seq<real>)
    requires Valid(b)
    ensures |s| == b.len
  {
    b.data[..b.len]
  }

  /** A fresh zero-filled buffer of the given capacity. */
  function NewBuffer(capacity: nat): (b: Buffer)
    ensures Valid(b) && Capacity(b) == capacity && Contents(b) == []
  {
    Buffer(seq(capacity, _ => 0.0), 0)
  }

  /** Forget the contents but keep the storage. */
  function Clear(b: Buffer): (r: Buffer)
    ensures Valid(r) && r.data == b.data && Contents(r) == []
  {
    Buffer(b.data, 0)
  }

  /** `Math.floor(capacity * 1.5)`. */
  function GrownCapacity(cap: nat): (n: nat)
    ensures cap <= n && 2 * n <= 3 * cap
    ensures cap >= 2 ==> cap < n
  {
    (cap * 3) / 2
  }

  /** Whether appending `extra` items makes `append` reallocate first. */
  predicate MustGrow(b: Buffer, extra: nat) {
    b.len + extra >= |b.data|
  }

  /** The capacity `append` writes into: grown once when `MustGrow`, else unchanged. */
  function TargetCapacity(b: Buffer, extra: nat): nat {
    if MustGrow(b, extra) then GrownCapacity(|b.data|) else |b.data|
  }

  /**
   * `append(buf)`: grow once by half when the chunk reaches the capacity (copying the old
   * storage into a zero-filled array), then write the chunk at `len`. A typed-array `set`
   * past the end raises a RangeError, modelled as `BufferRange`.
   */
  function Append(b: Buffer, chunk: seq<real>): (r: Result<Buffer>)
    requires Valid(b)
    ensures r.Ok? <==> b.len + |chunk| <= TargetCapacity(b, |chunk|)
    ensures r.Err? ==> r.error == BufferRange
    ensures r.Ok? ==> Valid(r.value) && Capacity(r.value) == TargetCapacity(b, |chunk|)
    ensures r.Ok? ==> r.value.len == b.len + |chunk| && Contents(r.value) == Contents(b) + chunk
    ensures r.Ok? ==> forall i | b.len + |chunk| <= i < |r.value.data| ::
                        r.value.data[i] == if i < |b.data| then b.data[i] else 0.0
  {
    var store := if MustGrow(b, |chunk|)
      then b.data + seq(GrownCapacity(|b.data|) - |b.data|, _ => 0.0)
      else b.data;
    if b.len + |chunk| <= |store| then
      var data := store[..b.len] + chunk + store[b.len + |chunk|..];
      assert data[..b.len] == b.data[..b.len];
      Ok(Buffer(data, b.len + |chunk|))
    else
      Err(BufferRange)
  }

  /**
   * The state of the extraction buffer between vertices: a whole number of vertices stored and
   * room for the next 3 floats once the next append has grown the store.
   */
  predicate Chunk3Ready(b: Buffer) {
    Valid(b) && b.len % 3 == 0 && |b.data| >= 3 && b.len + 3 <= GrownCapacity(|b.data|)
  }

  /** The buffer extraction starts from, `new CustomBuffer(3, 'float32')` then `clear()`. */
  lemma StartReady()
    ensures Chunk3Ready(Clear(NewBuffer(3)))
  {
  }

  /** Appending 3 floats at a time to a buffer that started at capacity 3 never writes past its end. */
  lemma Append3Safe(b: Buffer, chunk: seq<real>)
    requires Chunk3Ready(b) && |chunk| == 3
    ensures Append(b, chunk).Ok? && Chunk3Ready(Append(b, chunk).value)
  {
  }
}
