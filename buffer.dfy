/** The connection byte buffer: a growable vector with a read cursor and a
    write cursor splitting it into prependable, readable and writable regions.

        +-------------------+------------------+------------------+
        | prependable bytes |  readable bytes  |  writable bytes  |
        +-------------------+------------------+------------------+
        0      <=      readerIndex   <=   writerIndex    <=     |buf|
*/
module NetBuffer {
  import opened Bytes

  const CheapPrepend: nat := 8
  const InitialSize: nat := 1024
  /** Size of the on-stack scratch area `extrabuf` used by `readFd`. */
  const ExtraBufSize: nat := 65536
  const CR: Byte := 13
  const LF: Byte := 10

  // ---------------------------------------------------------------------
  // Searches over the backing vector (`std::search` and `memchr`).
  // ---------------------------------------------------------------------

  /** A "\r\n" pair starts at `j` and ends before `hi`. */
  predicate CrlfAt(s: seq<Byte>, j: nat, hi: nat)
    requires hi <= |s|
  {
    j + 1 < hi && s[j] == CR && s[j + 1] == LF
  }

  /** `std::search(lo, hi, "\r\n")`: the first pair lying wholly in `[lo, hi)`. */
  function SearchCrlf(s: seq<Byte>, lo: nat, hi: nat): (r: Option<nat>)
    requires lo <= hi <= |s|
    ensures r.Some? ==> lo <= r.value && CrlfAt(s, r.value, hi)
    ensures r.Some? ==> forall j :: lo <= j < r.value ==> !CrlfAt(s, j, hi)
    ensures r.None? ==> forall j :: lo <= j < hi ==> !CrlfAt(s, j, hi)
    decreases hi - lo
  {
    if lo + 1 >= hi then None
    else if s[lo] == CR && s[lo + 1] == LF then Some(lo)
    else SearchCrlf(s, lo + 1, hi)
  }

  /** `memchr(lo, b, hi - lo)` over bytes that all lie inside `s`. */
  function SearchByte(s: seq<Byte>, b: Byte, lo: nat, hi: nat): (r: Option<nat>)
    requires lo <= hi <= |s|
    ensures r.Some? ==> lo <= r.value < hi && s[r.value] == b
    ensures r.Some? ==> forall j :: lo <= j < r.value ==> s[j] != b
    ensures r.None? ==> forall j :: lo <= j < hi ==> s[j] != b
    decreases hi - lo
  {
    if lo >= hi then None
    else if s[lo] == b then Some(lo)
    else SearchByte(s, b, lo + 1, hi)
  }

  /** Outcome of `memchr(start, '\n', n)` when `start + n` may lie past the
      end of the vector: `Overrun` means no newline was met before the scan
      left the vector's storage (undefined behaviour in the source). */
  datatype EolScan = Found(index: nat) | NotFound | Overrun

  /** `findEOL(start)` as written: it scans `readable` bytes counted from
      `start`, not the bytes between `start` and the write cursor. */
  function EolFromAsWritten(s: seq<Byte>, r: nat, w: nat, start: nat): (res: EolScan)
    requires r <= start <= w <= |s|
    ensures res.Found? ==> start <= res.index < |s| && res.index < start + (w - r) && s[res.index] == LF
    ensures res.Found? ==> forall j :: start <= j < res.index ==> s[j] != LF
    ensures res.NotFound? ==> start + (w - r) <= |s| && forall j :: start <= j < start + (w - r) ==> s[j] != LF
    ensures res.Overrun? ==> start + (w - r) > |s| && forall j :: start <= j < |s| ==> s[j] != LF
  {
    var hi := start + (w - r);
    if hi <= |s| then
      match SearchByte(s, LF, start, hi)
      case Some(i) => Found(i)
      case None => NotFound
    else
      match SearchByte(s, LF, start, |s|)
      case Some(i) => Found(i)
      case None => Overrun
  }

  /** `findEOL(start)` as evidently intended: the first newline in `[start, w)`. */
  function EolFromWithin(s: seq<Byte>, w: nat, start: nat): (res: Option<nat>)
    requires start <= w <= |s|
    ensures res.Some? ==> start <= res.value < w && s[res.value] == LF
    ensures res.Some? ==> forall j :: start <= j < res.value ==> s[j] != LF
    ensures res.None? ==> forall j :: start <= j < w ==> s[j] != LF
  {
    SearchByte(s, LF, start, w)
  }

  /** Scanning from the read cursor, the code as written and the intended
      search agree: the flaw only shows for a start past `BeginRead()`. */
  lemma EolFromAgreesAtBeginRead(s: seq<Byte>, r: nat, w: nat)
    requires r <= w <= |s|
    ensures EolFromAsWritten(s, r, w, r) == (match EolFromWithin(s, w, r)
                                              case Some(i) => Found(i)
                                              case None => NotFound)
  {
  }

  /** A stale newline left in the writable region by an earlier `retrieve`
      is reported by `findEOL(start)` although it is not readable content:
      content "xy" at [8, 10), a leftover '\n' at 10, search from 9. */
  lemma EolFromReadsPastContent()
    ensures var s: seq<Byte> := [0, 0, 0, 0, 0, 0, 0, 0, 120, 121, 10];
            EolFromAsWritten(s, 8, 10, 9) == Found(10) && EolFromWithin(s, 10, 9) == None
  {
    var s: seq<Byte> := [0, 0, 0, 0, 0, 0, 0, 0, 120, 121, 10];
    assert SearchByte(s, LF, 9, 11) == Some(10);
    assert SearchByte(s, LF, 9, 10) == None;
  }

  // ---------------------------------------------------------------------
  // Reading from a descriptor: the kernel's `readv` answer is an input.
  // ---------------------------------------------------------------------

  /** What `readv` did: failed with `errno`, or delivered `data` in order
      across the iovecs it was given. */
  datatype ReadvOutcome = ReadvFailed(errno: int) | ReadvBytes(data: seq<Byte>)

  /** Number of iovecs `readFd` passes: the scratch area is offered only when
      the buffer's own writable tail is smaller than it. */
  function IovCount(writable: nat): (k: nat)
    ensures k == 1 || k == 2
    ensures k == 2 <==> writable < ExtraBufSize
  {
    if writable < ExtraBufSize then 2 else 1
  }

  /** Total length of the iovecs passed to `readv`: the kernel returns no more. */
  function ReadvCapacity(writable: nat): (c: nat)
    ensures c == writable + (if IovCount(writable) == 2 then ExtraBufSize else 0)
    ensures c <= writable + ExtraBufSize
  {
    if writable < ExtraBufSize then writable + ExtraBufSize else writable
  }

  class Buffer {
    var buf: seq<Byte>
    var readerIndex: nat
    var writerIndex: nat

    /** The cursor ordering, and room for the cheap-prepend area that
        `retrieveAll` resets both cursors to. */
    ghost predicate Valid()
      reads this
    {
      readerIndex <= writerIndex <= |buf| && CheapPrepend <= |buf|
    }

    /** The readable region: the bytes a reader will see, in order. */
    function Contents(): (c: seq<Byte>)
      reads this
      requires Valid()
      ensures |c| == writerIndex - readerIndex
    {
      buf[readerIndex..writerIndex]
    }

    constructor ()
      ensures Valid() && Contents() == []
      ensures ReadableBytes() == 0 && WritableBytes() == InitialSize
      ensures PrependableBytes() == CheapPrepend
    {
      buf := seq(CheapPrepend + InitialSize, _ => 0);
      readerIndex := CheapPrepend;
      writerIndex := CheapPrepend;
    }

    function ReadableBytes(): (n: nat)
      reads this
      requires Valid()
      ensures n == |Contents()|
    {
      writerIndex - readerIndex
    }

    function WritableBytes(): (n: nat)
      reads this
      requires Valid()
      ensures PrependableBytes() + ReadableBytes() + n == |buf|
    {
      |buf| - writerIndex
    }

    function PrependableBytes(): (n: nat)
      reads this
      requires Valid()
      ensures n + |Contents()| == writerIndex
    {
      readerIndex
    }

    /** Exchanges the complete state of two buffers. */
    method Swap(rhs: Buffer)
      requires Valid() && rhs.Valid()
      modifies this, rhs
      ensures Valid() && rhs.Valid()
      ensures buf == old(rhs.buf) && readerIndex == old(rhs.readerIndex) && writerIndex == old(rhs.writerIndex)
      ensures rhs.buf == old(buf) && rhs.readerIndex == old(readerIndex) && rhs.writerIndex == old(writerIndex)
    {
      var b, r, w := buf, readerIndex, writerIndex;
      buf, readerIndex, writerIndex := rhs.buf, rhs.readerIndex, rhs.writerIndex;
      rhs.buf, rhs.readerIndex, rhs.writerIndex := b, r, w;
    }

    // ----- searching -----

    /** `findCRLF()`: index of the first "\r\n" inside the readable region. */
    function FindCRLF(): (r: Option<nat>)
      reads this
      requires Valid()
      ensures r.Some? ==> readerIndex <= r.value && r.value + 2 <= writerIndex
      ensures r.Some? ==> buf[r.value] == CR && buf[r.value + 1] == LF
      ensures r.Some? ==> forall j :: readerIndex <= j < r.value ==> !CrlfAt(buf, j, writerIndex)
      ensures r.None? ==> forall j :: readerIndex <= j < writerIndex ==> !CrlfAt(buf, j, writerIndex)
    {
      SearchCrlf(buf, readerIndex, writerIndex)
    }

    /** `findCRLF(start)` for a start inside the readable region. */
    function FindCRLFFrom(start: nat): (r: Option<nat>)
      reads this
      requires Valid() && readerIndex <= start <= writerIndex
      ensures r.Some? ==> start <= r.value && r.value + 2 <= writerIndex
      ensures r.Some? ==> buf[r.value] == CR && buf[r.value + 1] == LF
      ensures r.Some? ==> forall j :: start <= j < r.value ==> !CrlfAt(buf, j, writerIndex)
      ensures r.None? ==> forall j :: start <= j < writerIndex ==> !CrlfAt(buf, j, writerIndex)
    {
      SearchCrlf(buf, start, writerIndex)
    }

    /** `findEOL()`: index of the first '\n' in the readable region. */
    function FindEOL(): (r: Option<nat>)
      reads this
      requires Valid()
      ensures r.Some? ==> readerIndex <= r.value < writerIndex && buf[r.value] == LF
      ensures r.Some? ==> forall j :: readerIndex <= j < r.value ==> buf[j] != LF
      ensures r.None? ==> forall j :: readerIndex <= j < writerIndex ==> buf[j] != LF
    {
      SearchByte(buf, LF, readerIndex, writerIndex)
    }

    /** `findEOL(start)` as written: `readableBytes()` bytes from `start`. */
    function FindEOLFrom(start: nat): (r: EolScan)
      reads this
      requires Valid() && readerIndex <= start <= writerIndex
      ensures r.Found? ==> start <= r.index < |buf| && buf[r.index] == LF
      ensures r.Found? ==> r.index < start + ReadableBytes()
      ensures r.Found? ==> forall j :: start <= j < r.index ==> buf[j] != LF
      ensures r.NotFound? ==>
                start + ReadableBytes() <= |buf| && forall j :: start <= j < start + ReadableBytes() ==> buf[j] != LF
      ensures r.Overrun? ==> start + ReadableBytes() > |buf| && forall j :: start <= j < |buf| ==> buf[j] != LF
    {
      EolFromAsWritten(buf, readerIndex, writerIndex, start)
    }

    // ----- retrieving -----

    /** `retrieve(len)`: drop `len` bytes from the front of the content. */
    method Retrieve(len: nat)
      requires Valid() && len <= ReadableBytes()
      modifies this
      ensures Valid() && buf == old(buf)
      ensures Contents() == old(Contents())[len..]
      ensures len < old(ReadableBytes()) ==>
                readerIndex == old(readerIndex) + len && writerIndex == old(writerIndex)
      ensures len == old(ReadableBytes()) ==>
                readerIndex == CheapPrepend && writerIndex == CheapPrepend
    {
      if len < ReadableBytes() {
        readerIndex := readerIndex + len;
      } else {
        RetrieveAll();
      }
    }

    /** `retrieveAll()`: both cursors back to the cheap-prepend boundary. */
    method RetrieveAll()
      requires Valid()
      modifies this
      ensures Valid() && buf == old(buf) && Contents() == []
      ensures readerIndex == CheapPrepend && writerIndex == CheapPrepend
    {
      readerIndex := CheapPrepend;
      writerIndex := CheapPrepend;
    }

    /** `retrieveUntil(end)` for an `end` inside the readable region. */
    method RetrieveUntil(end: nat)
      requires Valid() && readerIndex <= end <= writerIndex
      modifies this
      ensures Valid() && buf == old(buf)
      ensures Contents() == old(buf[end..writerIndex])
    {
      ghost var tail := buf[end..writerIndex];
      assert Contents()[end - readerIndex..] == tail;
      Retrieve(end - readerIndex);
    }

    method RetrieveInt32()
      requires Valid() && ReadableBytes() >= 4
      modifies this
      ensures Valid() && buf == old(buf) && Contents() == old(Contents())[4..]
    {
      Retrieve(4);
    }

    method RetrieveInt16()
      requires Valid() && ReadableBytes() >= 2
      modifies this
      ensures Valid() && buf == old(buf) && Contents() == old(Contents())[2..]
    {
      Retrieve(2);
    }

    method RetrieveInt8()
      requires Valid() && ReadableBytes() >= 1
      modifies this
      ensures Valid() && buf == old(buf) && Contents() == old(Contents())[1..]
    {
      Retrieve(1);
    }

    /** `retrieveAsString(len)`: the first `len` bytes, removed from the content. */
    method RetrieveAsString(len: nat) returns (s: seq<Byte>)
      requires Valid() && len <= ReadableBytes()
      modifies this
      ensures Valid() && buf == old(buf)
      ensures s == old(Contents())[..len]
      ensures old(Contents()) == s + Contents()
      ensures len == old(ReadableBytes()) ==> readerIndex == CheapPrepend && writerIndex == CheapPrepend
    {
      s := buf[readerIndex..readerIndex + len];
      Retrieve(len);
    }

    /** `retrieveAllAsString()`: the whole content, leaving the buffer empty. */
    method RetrieveAllAsString() returns (s: seq<Byte>)
      requires Valid()
      modifies this
      ensures Valid() && s == old(Contents()) && Contents() == []
      ensures readerIndex == CheapPrepend && writerIndex == CheapPrepend
    {
      s := RetrieveAsString(ReadableBytes());
    }

    // ----- writing -----

    /** `makeSpace(len)`, reached only from `ensureWritableBytes` when the
        writable tail is too short: compact when the prependable slack
        suffices, otherwise resize the vector to `writerIndex + len`. */
    method MakeSpace(len: nat)
      requires Valid() && WritableBytes() < len
      modifies this
      ensures Valid() && WritableBytes() >= len && Contents() == old(Contents())
      ensures old(WritableBytes() + PrependableBytes()) < len + CheapPrepend ==>
                |buf| == old(writerIndex) + len && readerIndex == old(readerIndex)
                && buf[..old(writerIndex)] == old(buf[..writerIndex])
      ensures old(WritableBytes() + PrependableBytes()) >= len + CheapPrepend ==>
                |buf| == old(|buf|) && readerIndex == CheapPrepend
    {
      if WritableBytes() + PrependableBytes() < len + CheapPrepend {
        buf := buf + seq(writerIndex + len - |buf|, _ => 0);
      } else {
        // The slack test plus `writable < len` leaves more than the cheap
        // prepend in front of the content.
        assert CheapPrepend < readerIndex;
        var readable := ReadableBytes();
        buf := buf[..CheapPrepend] + buf[readerIndex..writerIndex] + buf[CheapPrepend + readable..];
        readerIndex := CheapPrepend;
        writerIndex := readerIndex + readable;
      }
    }

    /** `ensureWritableBytes(len)`: afterwards at least `len` bytes are
        writable and the content is unchanged. */
    method EnsureWritableBytes(len: nat)
      requires Valid()
      modifies this
      ensures Valid() && WritableBytes() >= len && Contents() == old(Contents())
      ensures old(WritableBytes()) >= len ==>
                buf == old(buf) && readerIndex == old(readerIndex) && writerIndex == old(writerIndex)
      ensures old(WritableBytes()) < len && old(WritableBytes() + PrependableBytes()) < len + CheapPrepend ==>
                |buf| == old(writerIndex) + len && readerIndex == old(readerIndex)
      ensures old(WritableBytes()) < len && old(WritableBytes() + PrependableBytes()) >= len + CheapPrepend ==>
                |buf| == old(|buf|) && readerIndex == CheapPrepend
    {
      if WritableBytes() < len {
        MakeSpace(len);
      }
    }

    /** `hasWritten(len)`: bytes already placed at `BeginWrite()` join the content. */
    method HasWritten(len: nat)
      requires Valid() && len <= WritableBytes()
      modifies this
      ensures Valid() && buf == old(buf) && readerIndex == old(readerIndex)
      ensures writerIndex == old(writerIndex) + len
      ensures Contents() == old(Contents()) + buf[old(writerIndex)..writerIndex]
    {
      writerIndex := writerIndex + len;
    }

    /** `append(data, len)`: the content becomes the old content followed by `data`. */
    method Append(data: seq<Byte>)
      requires Valid()
      modifies this
      ensures Valid() && Contents() == old(Contents()) + data
      ensures old(WritableBytes()) >= |data| ==> |buf| == old(|buf|) && readerIndex == old(readerIndex)
      ensures readerIndex == old(readerIndex) || readerIndex == CheapPrepend
    {
      EnsureWritableBytes(|data|);
      buf := buf[..writerIndex] + data + buf[writerIndex + |data|..];
      HasWritten(|data|);
    }

    /** `prepend(data, len)`: writes `data` just in front of the content. */
    method Prepend(data: seq<Byte>)
      requires Valid() && |data| <= PrependableBytes()
      modifies this
      ensures Valid() && Contents() == data + old(Contents())
      ensures readerIndex == old(readerIndex) - |data| && writerIndex == old(writerIndex)
      ensures |buf| == old(|buf|)
    {
      readerIndex := readerIndex - |data|;
      buf := buf[..readerIndex] + data + buf[readerIndex + |data|..];
    }

    /** `shrink(reserve)`: rebuild into a fresh buffer just large enough for
        the content plus `reserve` writable bytes, then swap it in. */
    method Shrink(reserve: nat)
      requires Valid()
      modifies this
      ensures Valid() && Contents() == old(Contents())
      ensures readerIndex == CheapPrepend && WritableBytes() >= reserve
      ensures |buf| == CheapPrepend + (if old(ReadableBytes()) + reserve <= InitialSize
                                       then InitialSize else old(ReadableBytes()) + reserve)
    {
      var other := new Buffer();
      other.EnsureWritableBytes(ReadableBytes() + reserve);
      other.Append(Contents());
      Swap(other);
    }

    // ----- network-order integers -----

    method AppendInt32(x: int)
      requires Valid() && FitsSigned(x, 4)
      modifies this
      ensures Valid() && Contents() == old(Contents()) + EncodeSigned(x, 4)
    {
      Append(EncodeSigned(x, 4));
    }

    method AppendInt16(x: int)
      requires Valid() && FitsSigned(x, 2)
      modifies this
      ensures Valid() && Contents() == old(Contents()) + EncodeSigned(x, 2)
    {
      Append(EncodeSigned(x, 2));
    }

    method AppendInt8(x: int)
      requires Valid() && FitsSigned(x, 1)
      modifies this
      ensures Valid() && Contents() == old(Contents()) + EncodeSigned(x, 1)
    {
      Append(EncodeSigned(x, 1));
    }

    /** `peekInt32()`: the value whose network-order bytes open the content. */
    function PeekInt32(): (x: int)
      reads this
      requires Valid() && ReadableBytes() >= 4
      ensures FitsSigned(x, 4) && EncodeSigned(x, 4) == Contents()[..4]
    {
      EncodeDecodeSigned(Contents()[..4]);
      DecodeSigned(Contents()[..4])
    }

    function PeekInt16(): (x: int)
      reads this
      requires Valid() && ReadableBytes() >= 2
      ensures FitsSigned(x, 2) && EncodeSigned(x, 2) == Contents()[..2]
    {
      EncodeDecodeSigned(Contents()[..2]);
      DecodeSigned(Contents()[..2])
    }

    function PeekInt8(): (x: int)
      reads this
      requires Valid() && ReadableBytes() >= 1
      ensures FitsSigned(x, 1) && EncodeSigned(x, 1) == Contents()[..1]
    {
      EncodeDecodeSigned(Contents()[..1]);
      DecodeSigned(Contents()[..1])
    }

    /** `readInt32()`: peek, then drop the four bytes. */
    method ReadInt32() returns (x: int)
      requires Valid() && ReadableBytes() >= 4
      modifies this
      ensures Valid() && FitsSigned(x, 4)
      ensures old(Contents()) == EncodeSigned(x, 4) + Contents()
    {
      x := PeekInt32();
      RetrieveInt32();
    }

    method ReadInt16() returns (x: int)
      requires Valid() && ReadableBytes() >= 2
      modifies this
      ensures Valid() && FitsSigned(x, 2)
      ensures old(Contents()) == EncodeSigned(x, 2) + Contents()
    {
      x := PeekInt16();
      RetrieveInt16();
    }

    method ReadInt8() returns (x: int)
      requires Valid() && ReadableBytes() >= 1
      modifies this
      ensures Valid() && FitsSigned(x, 1)
      ensures old(Contents()) == EncodeSigned(x, 1) + Contents()
    {
      x := PeekInt8();
      RetrieveInt8();
    }

    method PrependInt32(x: int)
      requires Valid() && FitsSigned(x, 4) && PrependableBytes() >= 4
      modifies this
      ensures Valid() && Contents() == EncodeSigned(x, 4) + old(Contents())
    {
      Prepend(EncodeSigned(x, 4));
    }

    method PrependInt16(x: int)
      requires Valid() && FitsSigned(x, 2) && PrependableBytes() >= 2
      modifies this
      ensures Valid() && Contents() == EncodeSigned(x, 2) + old(Contents())
    {
      Prepend(EncodeSigned(x, 2));
    }

    method PrependInt8(x: int)
      requires Valid() && FitsSigned(x, 1) && PrependableBytes() >= 1
      modifies this
      ensures Valid() && Contents() == EncodeSigned(x, 1) + old(Contents())
    {
      Prepend(EncodeSigned(x, 1));
    }

    // ----- scatter read -----

    /** `readFd(fd, &savedErrno)` with the kernel's answer `kernel` to the
        `readv` over the writable tail and, when offered, the scratch area.
        The kernel never returns more than the iovecs hold. */
    method ReadFd(kernel: ReadvOutcome) returns (n: int, savedErrno: Option<int>)
      requires Valid()
      requires kernel.ReadvBytes? ==> |kernel.data| <= ReadvCapacity(WritableBytes())
      modifies this
      ensures Valid()
      ensures kernel.ReadvFailed? ==>
                n < 0 && savedErrno == Some(kernel.errno)
                && buf == old(buf) && readerIndex == old(readerIndex) && writerIndex == old(writerIndex)
      ensures kernel.ReadvBytes? ==>
                n == |kernel.data| && savedErrno == None && Contents() == old(Contents()) + kernel.data
      ensures kernel.ReadvBytes? && n <= old(WritableBytes()) ==>
                |buf| == old(|buf|) && readerIndex == old(readerIndex) && writerIndex == old(writerIndex) + n
      ensures kernel.ReadvBytes? && n > old(WritableBytes()) ==> IovCount(old(WritableBytes())) == 2
    {
      var writable := WritableBytes();
      match kernel
      case ReadvFailed(errno) =>
        n := -1;
        savedErrno := Some(errno);
      case ReadvBytes(data) =>
        n := |data|;
        savedErrno := None;
        if n <= writable {
          buf := buf[..writerIndex] + data + buf[writerIndex + n..];
          writerIndex := writerIndex + n;
        } else if n <= writable + ExtraBufSize {
          buf := buf[..writerIndex] + data[..writable];
          writerIndex := |buf|;
          Append(data[writable..]);
          assert data == data[..writable] + data[writable..];
        } else {
          // n > writable + sizeof extrabuf: the kernel cannot return this much.
          assert false;
        }
    }
  }

  // ---------------------------------------------------------------------
  // The buffer as a byte stream, exercised on fresh buffers.
  // ---------------------------------------------------------------------

  /** Bytes come out in the order they went in: two appends, then a
      `retrieveAsString` of the first length and a `retrieveAllAsString`,
      give back the two pieces and leave the buffer empty. */
  method AppendRetrieveFifo(first: seq<Byte>, second: seq<Byte>) returns (a: seq<Byte>, b: seq<Byte>, left: nat)
    ensures a == first && b == second && left == 0
  {
    var buffer := new Buffer();
    buffer.Append(first);
    buffer.Append(second);
    assert buffer.Contents() == first + second;
    a := buffer.RetrieveAsString(|first|);
    assert (first + second)[..|first|] == first;
    assert buffer.Contents() == second;
    b := buffer.RetrieveAllAsString();
    left := buffer.ReadableBytes();
  }

  /** `appendIntN(x)` and then `readIntN()` on a fresh buffer gives `x`
      back, negative values included, and empties the buffer. */
  method IntRoundTrip(x: int, width: nat) returns (y: int, left: nat)
    requires width == 1 || width == 2 || width == 4
    requires FitsSigned(x, width)
    ensures y == x && left == 0
  {
    var buffer := new Buffer();
    if width == 4 {
      buffer.AppendInt32(x);
      y := buffer.ReadInt32();
    } else if width == 2 {
      buffer.AppendInt16(x);
      y := buffer.ReadInt16();
    } else {
      buffer.AppendInt8(x);
      y := buffer.ReadInt8();
    }
    assert EncodeSigned(x, width) == EncodeSigned(y, width) + buffer.Contents();
    assert EncodeSigned(x, width) == EncodeSigned(y, width);
    DecodeEncodeSigned(x, width);
    DecodeEncodeSigned(y, width);
    left := buffer.ReadableBytes();
  }

  /** The length-header idiom `prependInt32`: append a payload, prepend its
      length in the cheap-prepend area, and a reader finds the length
      first and the payload after it. */
  method LengthPrefixedFrame(payload: seq<Byte>) returns (header: int, body: seq<Byte>)
    requires FitsSigned(|payload|, 4)
    ensures header == |payload| && body == payload
  {
    var buffer := new Buffer();
    buffer.Append(payload);
    buffer.PrependInt32(|payload|);
    header := buffer.ReadInt32();
    ghost var framed := EncodeSigned(|payload|, 4) + payload;
    assert framed == EncodeSigned(header, 4) + buffer.Contents();
    assert framed[..4] == EncodeSigned(|payload|, 4) && framed[..4] == EncodeSigned(header, 4);
    assert framed[4..] == payload && framed[4..] == buffer.Contents();
    DecodeEncodeSigned(|payload|, 4);
    DecodeEncodeSigned(header, 4);
    body := buffer.RetrieveAllAsString();
  }
}
