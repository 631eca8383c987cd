/** A byte array whose length is given by a leading compact unsigned 64-bit
    integer (section 2.2.1.3 of [MS-FSSHTTPB]). The compact integer's bit
    layout (section 2.2.1.1) is not part of this model: its decoder is a
    parameter that reports the value and how many header bytes it used. */
module BinaryItemParse {
  import opened Shared

  /** What the compact-integer decoder yields: the value and the number of
      bytes it occupied. */
  datatype Header = Header(value: U64, length: nat)

  /** The decoder reads from the front of the bytes it is given, so a
      successful decode never claims more bytes than there are. */
  predicate HeaderWithin(decode: seq<byte> -> Result<Header>, bytes: seq<byte>) {
    decode(bytes).Ok? ==> decode(bytes).value.length <= |bytes|
  }

  datatype BinaryItem = BinaryItem(bytes: seq<byte>) {

    /** The stored bytes, handed over as they are. */
    function Value(): (r: seq<byte>)
      ensures BinaryItem(r) == this
    {
      bytes
    }
  }

  /** Reads a compact-integer size and then exactly that many bytes; the
      result carries the item and the advanced cursor. */
  function Parse(reader: Reader, decode: seq<byte> -> Result<Header>): (r: Result<(BinaryItem, Reader)>)
    requires reader.Valid()
    requires HeaderWithin(decode, reader.Remaining())
    // a failing size header is passed on as it is
    ensures decode(reader.Remaining()).Err? ==> r == Err(decode(reader.Remaining()).error)
    // otherwise the item exists exactly when `size` bytes follow the header
    ensures decode(reader.Remaining()).Ok? ==>
              var h := decode(reader.Remaining()).value;
              && (r.Ok? <==> h.length + h.value <= |reader.Remaining()|)
              && (r.Err? ==> r.error == UnexpectedEof)
    ensures r.Ok? ==>
              && decode(reader.Remaining()).Ok?
              && var h := decode(reader.Remaining()).value;
              && var (item, next) := r.value;
              && |item.Value()| == h.value
              && item.Value() == reader.Remaining()[h.length..h.length + h.value]
              && next.buf == reader.buf
              && next.pos == reader.pos + h.length + h.value
              && next.Valid()
  {
    match decode(reader.Remaining())
    case Err(e) => Err(e)
    case Ok(h) =>
      var afterHeader := Reader(reader.buf, reader.pos + h.length);
      match afterHeader.Read(h.value)
      case Err(e) => Err(e)
      case Ok((data, next)) => Ok((BinaryItem(data), next))
  }

  /** A size of zero gives an empty item and consumes only the header. */
  lemma ParseEmptyItem(reader: Reader, decode: seq<byte> -> Result<Header>)
    requires reader.Valid()
    requires HeaderWithin(decode, reader.Remaining())
    requires decode(reader.Remaining()).Ok? && decode(reader.Remaining()).value.value == 0
    ensures Parse(reader, decode)
            == Ok((BinaryItem([]), Reader(reader.buf, reader.pos + decode(reader.Remaining()).value.length)))
  {
  }

  /** Framing: when the bytes at the cursor are a header the decoder reads
      as `|data|`, followed by `data` and anything else, parsing yields
      `data` and leaves the cursor on the first byte after it. */
  lemma ParseFramedItem(prefix: seq<byte>, header: seq<byte>, data: seq<byte>, rest: seq<byte>,
                        decode: seq<byte> -> Result<Header>)
    requires |data| < 0x1_0000_0000_0000_0000
    requires decode(header + data + rest) == Ok(Header(|data|, |header|))
    ensures var reader := Reader(prefix + header + data + rest, |prefix|);
            && reader.Valid()
            && HeaderWithin(decode, reader.Remaining())
            && Parse(reader, decode).Ok?
            && Parse(reader, decode).value.0.Value() == data
            && Parse(reader, decode).value.1.Remaining() == rest
  {
    var buf := prefix + header + data + rest;
    var reader := Reader(buf, |prefix|);
    assert reader.Remaining() == header + data + rest;
    var item := Parse(reader, decode).value.0;
    var next := Parse(reader, decode).value.1;
    assert item.Value() == (header + data + rest)[|header|..|header| + |data|];
    assert (header + data + rest)[|header|..|header| + |data|] == data;
    assert next.pos == |prefix| + |header| + |data|;
    assert buf[|prefix| + |header| + |data|..] == rest;
  }
}
