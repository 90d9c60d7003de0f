/** server/src/base/Buffer.h: a growable array with a read and a write index, used as a byte queue. */
module ByteBuffer {
  import opened Framing

  class Buffer {
    var data: array<byte>
    var readIndex: nat
    var writeIndex: nat

    ghost predicate Valid()
      reads this
    {
      readIndex <= writeIndex <= data.Length
    }

    /** The abstract byte queue. */
    ghost function Contents(): (s: Bytes)
      reads this, data
      requires Valid()
      ensures |s| == writeIndex - readIndex
    {
      data[readIndex..writeIndex]
    }

    constructor (initialSize: nat)
      ensures Valid() && fresh(data) && Contents() == []
    {
      data := new byte[initialSize];
      readIndex, writeIndex := 0, 0;
    }

    function ReadableBytes(): nat
      reads this
      requires Valid()
    {
      writeIndex - readIndex
    }

    function WritableBytes(): nat
      reads this
      requires Valid()
    {
      data.Length - writeIndex
    }

    /** resize(m_write_index + len): a longer array with the same bytes in front. */
    method Grow(len: nat)
      requires Valid() && WritableBytes() < len
      modifies this`data
      ensures Valid() && WritableBytes() == len && fresh(data)
      ensures Contents() == old(Contents())
    {
      var grown := new byte[writeIndex + len];
      for i := 0 to data.Length
        modifies grown
        invariant forall k :: 0 <= k < i ==> grown[k] == data[k]
      {
        grown[i] := data[i];
      }
      assert grown[readIndex..writeIndex] == data[readIndex..writeIndex];
      data := grown;
    }

    /** Moves the readable bytes, front to back, to the start of the array. */
    method MoveToFront()
      requires Valid()
      modifies this`readIndex, this`writeIndex, data
      ensures Valid() && WritableBytes() == old(WritableBytes()) + old(readIndex)
      ensures Contents() == old(Contents())
    {
      ghost var was, from := data[..], readIndex;
      var readable := ReadableBytes();
      for i := 0 to readable
        modifies data
        invariant forall k :: 0 <= k < i ==> data[k] == was[from + k]
        invariant forall k :: from + i <= k < data.Length ==> data[k] == was[k]
      {
        data[i] := data[readIndex + i];
      }
      readIndex := 0;
      writeIndex := readIndex + readable;
      forall k | 0 <= k < readable
        ensures Contents()[k] == was[from..from + readable][k]
      {
        assert Contents()[k] == data[k];
      }
      assert |Contents()| == |was[from..from + readable]|;
    }

    /** Makes room for len more bytes: nothing to do, or move the data to the front, or grow. */
    method EnsureCapacity(len: nat)
      requires Valid()
      modifies this, data
      ensures Valid() && WritableBytes() >= len
      ensures data == old(data) || fresh(data)
      ensures Contents() == old(Contents())
    {
      if WritableBytes() < len {
        if WritableBytes() + readIndex < len {
          Grow(len);
        } else {
          MoveToFront();
        }
      }
    }

    /** std::copy behind the last byte, where there is room. */
    method CopyIn(src: Bytes)
      requires Valid() && WritableBytes() >= |src|
      modifies this`writeIndex, data
      ensures Valid() && Contents() == old(Contents()) + src
    {
      ghost var was, w := data[..], writeIndex;
      for i := 0 to |src|
        modifies data
        invariant forall k :: 0 <= k < w ==> data[k] == was[k]
        invariant forall k :: 0 <= k < i ==> data[w + k] == src[k]
      {
        data[writeIndex + i] := src[i];
      }
      writeIndex := writeIndex + |src|;
      assert data[readIndex..w] == was[readIndex..w] && data[w..writeIndex] == src;
      assert Contents() == data[readIndex..w] + data[w..writeIndex];
    }

    method Append(src: Bytes)
      requires Valid()
      modifies this, data
      ensures Valid()
      ensures data == old(data) || fresh(data)
      ensures Contents() == old(Contents()) + src
    {
      EnsureCapacity(|src|);
      CopyIn(src);
    }

    method RetrieveAll()
      requires Valid()
      modifies this
      ensures Valid() && data == old(data) && Contents() == []
    {
      readIndex := 0;
      writeIndex := 0;
    }

    /** Drops a prefix; asking for more than is readable empties the buffer. */
    method Retrieve(len: nat)
      requires Valid()
      modifies this
      ensures Valid() && data == old(data)
      ensures Contents() == if len < |old(Contents())| then old(Contents())[len..] else []
    {
      if len < ReadableBytes() {
        readIndex := readIndex + len;
      } else {
        RetrieveAll();
      }
    }

    /** The first len readable bytes, without consuming them (peek() and a length). */
    method Peek(len: nat) returns (s: Bytes)
      requires Valid() && len <= ReadableBytes()
      ensures s == Contents()[..len]
    {
      s := data[readIndex..readIndex + len];
    }

    /** Reads at peek() without checking, so the caller must not ask for more than is readable. */
    method ReadAsString(len: nat) returns (s: Bytes)
      requires Valid() && len <= ReadableBytes()
      modifies this
      ensures Valid() && data == old(data)
      ensures old(Contents()) == s + Contents() && |s| == len
    {
      s := Peek(len);
      Retrieve(len);
    }

    method ReadAllAsString() returns (s: Bytes)
      requires Valid()
      modifies this
      ensures Valid() && data == old(data)
      ensures s == old(Contents()) && Contents() == []
    {
      s := Peek(ReadableBytes());
      RetrieveAll();
    }
  }
}
