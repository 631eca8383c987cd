/** Value types shared by the OneStore object resolver, the page-series
    traversal and the length-prefixed byte item: identifiers, the error
    kinds these components raise, the Option/Result wrappers they return,
    and the byte cursor the primitive codecs read from. */
module Shared {

  newtype byte = x: int | 0 <= x < 0x100

  type U8 = x: nat | x < 0x100
  type U24 = x: nat | x < 0x100_0000
  type U32 = x: nat | x < 0x1_0000_0000
  type U64 = x: nat | x < 0x1_0000_0000_0000_0000
  type Guid = x: nat | x < 0x1_0000_0000_0000_0000_0000_0000_0000_0000

  /** An extended GUID: a 128-bit GUID plus a 32-bit index (section 2.2.1.7
      of [MS-FSSHTTPB]). Equality is structural on both parts. */
  datatype ExGuid = ExGuid(guid: Guid, value: U32)

  /** A cell id: a pair of extended GUIDs (section 2.2.1.10 of
      [MS-FSSHTTPB]). The first names the context, the second the object
      space that owns the cell. */
  datatype CellId = CellId(context: ExGuid, space: ExGuid)

  /** A compact id as it appears in a property set's declared reference
      lists (section 2.2.2 of [MS-ONESTOR]): an 8-bit value and a 24-bit
      index into the global id table. */
  datatype CompactId = CompactId(n: U8, guidIndex: U24)

  /** The schema tag of an object (section 2.6.14 of [MS-ONESTOR]). */
  datatype JcId = JcId(value: U32)

  /** Raw bytes of a blob held by the package. */
  type FileBlob = seq<byte>

  /** The error kinds raised by the modelled code. Parsers outside the
      model may return any of them; the model propagates those unchanged. */
  datatype Error =
    | MalformedOneStoreData(reason: string)
    | MalformedOneNoteData(reason: string)
    | UnexpectedEof

  datatype Option<+T> = None | Some(value: T)

  datatype Result<+T> = Ok(value: T) | Err(error: Error)

  function Min(a: int, b: int): int {
    if a <= b then a else b
  }

  /** Positional pairing, as Rust's `Iterator::zip`: stops at the end of
      the shorter input. */
  function Zip<A, B>(xs: seq<A>, ys: seq<B>): (r: seq<(A, B)>)
    ensures |r| == Min(|xs|, |ys|)
    ensures forall i :: 0 <= i < |r| ==> r[i] == (xs[i], ys[i])
  {
    if |xs| == 0 || |ys| == 0 then []
    else [(xs[0], ys[0])] + Zip(xs[1..], ys[1..])
  }

  /** A read cursor over a byte buffer: `pos` is the index of the next
      byte to read. */
  datatype Reader = Reader(buf: seq<byte>, pos: nat) {

    predicate Valid() {
      pos <= |buf|
    }

    function Remaining(): (r: seq<byte>)
      requires Valid()
    {
      buf[pos..]
    }

    /** Reads exactly `n` bytes, or fails without moving when fewer remain. */
    function Read(n: nat): (r: Result<(seq<byte>, Reader)>)
      requires Valid()
      ensures r.Ok? <==> n <= |Remaining()|
      ensures r.Err? ==> r.error == UnexpectedEof
      ensures r.Ok? ==>
                && r.value.0 == Remaining()[..n]
                && r.value.1 == Reader(buf, pos + n)
                && r.value.1.Valid()
                && r.value.1.Remaining() == Remaining()[n..]
    {
      if n <= |buf| - pos then Ok((buf[pos..pos + n], Reader(buf, pos + n)))
      else Err(UnexpectedEof)
    }
  }
}
