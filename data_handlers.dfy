/** The libcurl-compatible byte pumps of restincurl.h: InDataHandler
    appends every received chunk to a caller-owned container, and
    OutDataHandler serves an owned buffer in chunks behind a cursor. */
module DataHandlers {
  import opened Curl

  /** 2^64: size_t arithmetic is modulo this. */
  const SIZE_LIMIT: int := 0x1_0000_0000_0000_0000

  type SizeT = x: int | 0 <= x < SIZE_LIMIT

  /** `size * nitems` as size_t computes it. */
  function Bytes(size: SizeT, nitems: SizeT): (r: SizeT)
    ensures size * nitems < SIZE_LIMIT ==> r == size * nitems
    ensures size == 0 || nitems == 0 ==> r == 0
  {
    assert 0 <= size * nitems;
    (size * nitems) % SIZE_LIMIT
  }

  /** A caller-owned receiving container (std::string by default). */
  class ByteString {
    var contents: seq<byte>

    constructor (init: seq<byte>)
      ensures contents == init
    {
      contents := init;
    }
  }

  /** InDataHandler<T>: holds a reference to the caller's container. */
  class InDataHandler {
    const data: ByteString

    constructor (data: ByteString)
      ensures this.data == data
    {
      this.data := data;
    }

    /** write_callback: append the `size * nitems` bytes at `ptr` to the
        container and report them all as consumed. */
    method WriteCallback(ptr: array<byte>, size: SizeT, nitems: SizeT) returns (n: SizeT)
      requires Bytes(size, nitems) <= ptr.Length
      modifies data
      ensures n == Bytes(size, nitems)
      ensures data.contents == old(data.contents) + ptr[..n]
      ensures n == 0 ==> data.contents == old(data.contents)
    {
      var bytes := Bytes(size, nitems);
      if bytes > 0 {
        var i := 0;
        while i < bytes
          invariant 0 <= i <= bytes
          invariant data.contents == old(data.contents) + ptr[..i]
        {
          data.contents := data.contents + [ptr[i]];
          i := i + 1;
        }
      }
      n := bytes;
    }
  }

  /** How many bytes one read_callback call hands out when `remaining`
      bytes are left and libcurl offers room for `bytes`: the smaller of
      the two. */
  function ReadLength(remaining: int, bytes: SizeT): (n: SizeT)
    requires 0 <= remaining < SIZE_LIMIT
    ensures n <= bytes && n <= remaining
    ensures n == bytes || n == remaining
  {
    if bytes < remaining then bytes else remaining
  }

  /** The chunk one read_callback call should hand out from cursor `sent`:
      the next ReadLength bytes, continuing `data` where the cursor is. */
  function Chunk(data: seq<byte>, sent: nat, bytes: SizeT): (c: seq<byte>)
    requires |data| < SIZE_LIMIT && sent <= |data|
    ensures |c| == ReadLength(|data| - sent, bytes)
    ensures data[..sent] + c == data[..sent + |c|]
  {
    var n := ReadLength(|data| - sent, bytes);
    assert data[..sent] + data[sent..sent + n] == data[..sent + n];
    data[sent..sent + n]
  }

  /** OutDataHandler<T>: owns the data to upload and the cursor
      `sent` (sendt_bytes_). `uploaded` is what every read so far has
      handed out, in order. */
  class OutDataHandler {
    var data: seq<byte>
    var sent: SizeT
    ghost var uploaded: seq<byte>

    ghost predicate Valid()
      reads this
    {
      |data| < SIZE_LIMIT && sent <= |data| && uploaded == data[..sent]
    }

    /** The defaulted constructor: nothing to send. */
    constructor Empty()
      ensures Valid() && data == [] && sent == 0 && uploaded == []
    {
      data := [];
      sent := 0;
      uploaded := [];
    }

    constructor (v: seq<byte>)
      requires |v| < SIZE_LIMIT
      ensures Valid() && data == v && sent == 0 && uploaded == []
    {
      data := v;
      sent := 0;
      uploaded := [];
    }

    /** read_callback, with the copy taken from the cursor onwards
        (`data_[sendt_bytes_ .. sendt_bytes_ + out_bytes)`): fill the
        front of `bufptr` with the next chunk and advance the cursor. */
    method ReadCallback(bufptr: array<byte>, size: SizeT, nitems: SizeT) returns (n: SizeT)
      requires Valid()
      requires Bytes(size, nitems) <= bufptr.Length
      modifies this`sent, this`uploaded, bufptr
      ensures Valid() && data == old(data)
      ensures n == ReadLength(|data| - old(sent), Bytes(size, nitems))
      ensures sent == old(sent) + n
      ensures bufptr[..n] == Chunk(data, old(sent), Bytes(size, nitems))
      ensures bufptr[n..] == old(bufptr[n..])
      ensures uploaded == old(uploaded) + bufptr[..n]
      ensures old(sent) == |data| ==> n == 0 && bufptr[..] == old(bufptr[..])
    {
      var bytes := Bytes(size, nitems);
      var from := sent;
      var outBytes := ReadLength(|data| - from, bytes);
      var i := 0;
      while i < outBytes
        invariant 0 <= i <= outBytes
        invariant sent == from && uploaded == old(uploaded)
        invariant forall k :: 0 <= k < i ==> bufptr[k] == data[from + k]
        invariant forall k :: i <= k < bufptr.Length ==> bufptr[k] == old(bufptr[k])
      {
        bufptr[i] := data[from + i];
        i := i + 1;
      }
      assert bufptr[..outBytes] == data[from..from + outBytes];
      assert bufptr[outBytes..] == old(bufptr[outBytes..]);
      assert data[..from] + data[from..from + outBytes] == data[..from + outBytes];
      sent := from + outBytes;
      uploaded := uploaded + bufptr[..outBytes];
      n := outBytes;
    }
  }

  /** The bytes that successive read_callback calls, offered the given
      room, hand out starting from cursor `sent`. */
  function Serve(data: seq<byte>, sent: nat, requests: seq<SizeT>): seq<byte>
    requires |data| < SIZE_LIMIT && sent <= |data|
    decreases |requests|
  {
    if requests == [] then []
    else
      var c := Chunk(data, sent, requests[0]);
      c + Serve(data, sent + |c|, requests[1..])
  }

  /** Successive reads continue one another: what has been sent followed
      by what the next reads hand out is always a prefix of the data. */
  lemma {:induction false} ReadsConcatenate(data: seq<byte>, sent: nat, requests: seq<SizeT>)
    requires |data| < SIZE_LIMIT && sent <= |data|
    ensures sent + |Serve(data, sent, requests)| <= |data|
    ensures data[..sent] + Serve(data, sent, requests) == data[..sent + |Serve(data, sent, requests)|]
    decreases |requests|
  {
    if requests != [] {
      var c := Chunk(data, sent, requests[0]);
      var rest := Serve(data, sent + |c|, requests[1..]);
      ReadsConcatenate(data, sent + |c|, requests[1..]);
      assert data[..sent] + (c + rest) == (data[..sent] + c) + rest;
    }
  }

  /** Once the cursor is at the end, every further read hands out nothing. */
  lemma {:induction false} EndOfUpload(data: seq<byte>, requests: seq<SizeT>)
    requires |data| < SIZE_LIMIT
    ensures Serve(data, |data|, requests) == []
    decreases |requests|
  {
    if requests != [] {
      EndOfUpload(data, requests[1..]);
    }
  }

  /** Reads that each offer room for at least one byte, as many of them
      as there are bytes left, deliver the whole of the data. */
  lemma {:induction false} UploadCompletes(data: seq<byte>, sent: nat, requests: seq<SizeT>)
    requires |data| < SIZE_LIMIT && sent <= |data|
    requires forall i :: 0 <= i < |requests| ==> requests[i] > 0
    requires |requests| >= |data| - sent
    ensures data[..sent] + Serve(data, sent, requests) == data
    decreases |requests|
  {
    if sent == |data| {
      EndOfUpload(data, requests);
      assert data[..sent] == data;
    } else {
      var c := Chunk(data, sent, requests[0]);
      var next := sent + |c|;
      var tail := requests[1..];
      assert |c| > 0;
      assert forall i :: 0 <= i < |tail| ==> tail[i] == requests[i + 1];
      UploadCompletes(data, next, tail);
      var rest := Serve(data, next, tail);
      assert Serve(data, sent, requests) == c + rest;
      calc {
        data[..sent] + (c + rest);
        (data[..sent] + c) + rest;
        data[..next] + rest;
        data;
      }
    }
  }

  // ---------------------------------------------------------------
  // read_callback as the header writes it (restincurl.h:159-164): the
  // copy range ends at `cbegin() + out_bytes` instead of
  // `cbegin() + sendt_bytes_ + out_bytes`.

  /** `Undefined` is a copy whose begin lies past its end (undefined
      behaviour of std::copy); `Copied` gives the bytes written to the
      front of the buffer and the count returned to libcurl. */
  datatype AsWrittenRead = Undefined | Copied(written: seq<byte>, reported: nat)

  function ReadAsWritten(data: seq<byte>, sent: nat, bytes: SizeT): (r: AsWrittenRead)
    requires |data| < SIZE_LIMIT && sent <= |data|
    ensures r.Undefined? <==> sent > ReadLength(|data| - sent, bytes)
    ensures r.Copied? ==> r.reported == ReadLength(|data| - sent, bytes)
    ensures r.Copied? ==> |r.written| + sent == r.reported
    ensures sent == 0 ==> r == Copied(Chunk(data, 0, bytes), |Chunk(data, 0, bytes)|)
  {
    var out := ReadLength(|data| - sent, bytes);
    if sent > out then Undefined else Copied(data[sent..out], out)
  }

  /** After the first read, every read that has something to send goes
      wrong: it is undefined, or it writes fewer bytes than it reports. */
  lemma AsWrittenDiverges(data: seq<byte>, sent: nat, bytes: SizeT)
    requires |data| < SIZE_LIMIT && 0 < sent <= |data|
    requires ReadLength(|data| - sent, bytes) > 0
    ensures ReadAsWritten(data, sent, bytes) != Copied(Chunk(data, sent, bytes), |Chunk(data, sent, bytes)|)
    ensures ReadAsWritten(data, sent, bytes).Copied? ==>
              |ReadAsWritten(data, sent, bytes).written| < ReadAsWritten(data, sent, bytes).reported
  {
  }

  /** Uploading [1, 2, 3, 4] with room for 1 byte and then 3: the second
      read writes [2, 3] but reports 3 bytes, so byte 4 is never copied
      and the third reported byte is whatever the buffer held. */
  lemma AsWrittenShortCopy()
    ensures ReadAsWritten([1, 2, 3, 4], 0, 1) == Copied([1], 1)
    ensures ReadAsWritten([1, 2, 3, 4], 1, 3) == Copied([2, 3], 3)
    ensures Serve([1, 2, 3, 4], 0, [1, 3]) == [1, 2, 3, 4]
  {
    assert Chunk([1, 2, 3, 4], 0, 1) == [1];
    assert Chunk([1, 2, 3, 4], 1, 3) == [2, 3, 4];
    assert Serve([1, 2, 3, 4], 4, []) == [];
  }

  /** Uploading [1, 2, 3] with room for 2 bytes twice: the second copy
      runs from data_[2] back to data_[1]. */
  lemma AsWrittenUndefined()
    ensures ReadAsWritten([1, 2, 3], 0, 2) == Copied([1, 2], 2)
    ensures ReadAsWritten([1, 2, 3], 2, 2) == Undefined
  {
  }
}
