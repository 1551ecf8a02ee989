/** Big-endian 32-bit words over byte buffers, as the `byteorder` crate's
    `BigEndian::read_u32`/`write_u32` are used on `&buf[offset..]`: slicing past
    the end, or leaving fewer than four bytes, panics. */
module BigEndian {
  import opened Faults

  /** The word whose most significant byte is `b0`. */
  function Word(b0: bv8, b1: bv8, b2: bv8, b3: bv8): bv32
  {
    ((b0 as bv32) << 24) | ((b1 as bv32) << 16) | ((b2 as bv32) << 8) | (b3 as bv32)
  }

  /** The four bytes of `v`, most significant first. */
  function Bytes(v: bv32): (r: seq<bv8>)
    ensures |r| == 4
    ensures Word(r[0], r[1], r[2], r[3]) == v
  {
    [(v >> 24) as bv8, ((v >> 16) & 0xFF) as bv8, ((v >> 8) & 0xFF) as bv8, (v & 0xFF) as bv8]
  }

  lemma BytesOfWord(b0: bv8, b1: bv8, b2: bv8, b3: bv8)
    ensures Bytes(Word(b0, b1, b2, b3)) == [b0, b1, b2, b3]
  {
  }

  /** `read_u32(&buf[at..])`. */
  function ReadU32(buf: seq<bv8>, at: nat): (r: Result<bv32>)
    ensures r.Ok? <==> at + 4 <= |buf|
    ensures r.Ok? ==> Bytes(r.value) == buf[at..at + 4]
    ensures r.Err? ==> r.fault == OutOfBounds
  {
    if at + 4 <= |buf| then
      BytesOfWord(buf[at], buf[at + 1], buf[at + 2], buf[at + 3]);
      Ok(Word(buf[at], buf[at + 1], buf[at + 2], buf[at + 3]))
    else Err(OutOfBounds)
  }

  /** `write_u32(&mut buf[at..], v)`: the new buffer, or the panic. */
  function WriteU32(buf: seq<bv8>, at: nat, v: bv32): (r: Result<seq<bv8>>)
    ensures r.Ok? <==> at + 4 <= |buf|
    ensures r.Ok? ==> |r.value| == |buf| && r.value[at..at + 4] == Bytes(v)
    ensures r.Ok? ==> forall k :: 0 <= k < |buf| && !(at <= k < at + 4) ==> r.value[k] == buf[k]
    ensures r.Err? ==> r.fault == OutOfBounds
  {
    if at + 4 <= |buf| then Ok(buf[..at] + Bytes(v) + buf[at + 4..]) else Err(OutOfBounds)
  }

  /** Reading back a written word gives the word. */
  lemma ReadAfterWrite(buf: seq<bv8>, at: nat, v: bv32)
    requires at + 4 <= |buf|
    ensures ReadU32(WriteU32(buf, at, v).value, at) == Ok(v)
  {
    var b := WriteU32(buf, at, v).value;
    BytesOfWord(b[at], b[at + 1], b[at + 2], b[at + 3]);
  }

  /** A write leaves every word that does not overlap it readable as before. */
  lemma ReadOtherAfterWrite(buf: seq<bv8>, at: nat, v: bv32, other: nat)
    requires at + 4 <= |buf|
    requires other + 4 <= at || at + 4 <= other
    ensures ReadU32(WriteU32(buf, at, v).value, other) == ReadU32(buf, other)
  {
  }

  /** `write_u32` in place on a byte array. */
  method StoreU32(a: array<bv8>, at: nat, v: bv32) returns (out: Outcome)
    modifies a
    ensures out.Pass? <==> at + 4 <= a.Length
    ensures out.Fail? ==> out.fault == OutOfBounds && a[..] == old(a[..])
    ensures out.Pass? ==> a[..] == WriteU32(old(a[..]), at, v).value
  {
    if at + 4 > a.Length {
      return Fail(OutOfBounds);
    }
    var b := Bytes(v);
    a[at], a[at + 1], a[at + 2], a[at + 3] := b[0], b[1], b[2], b[3];
    assert a[..] == old(a[..])[..at] + b + old(a[..])[at + 4..];
    out := Pass;
  }
}
