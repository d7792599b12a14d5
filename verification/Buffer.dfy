/** The compacting output buffer: an array with two indices that behaves as a byte queue. */
module Buffer {
  import opened Base

  const DEFAULT_BUFFER_SIZE: nat := 1024

  class Buffer {
    var data: array<Byte>
    var readIndex: nat
    var writeIndex: nat

    ghost predicate Valid()
      reads this
    {
      readIndex <= writeIndex <= data.Length && data.Length > 0
    }

    /** The queued bytes, oldest first. */
    ghost function Contents(): (s: Bytes)
      requires Valid()
      reads this, data
    {
      data[readIndex..writeIndex]
    }

    constructor (initialSize: nat)
      ensures Valid() && fresh(data) && Contents() == []
      ensures data.Length == if initialSize == 0 then 1 else initialSize
    {
      data := new Byte[if initialSize == 0 then 1 else initialSize];
      readIndex, writeIndex := 0, 0;
    }

    method ReadableBytes() returns (n: nat)
      requires Valid()
      ensures n == |Contents()|
    {
      n := writeIndex - readIndex;
    }

    /** Appends at the back; the array is replaced only when the free space is too small. */
    method Append(input: RawBytes) returns (status: Result<()>)
      requires Valid()
      modifies this, data
      ensures Valid() && (data == old(data) || fresh(data))
      ensures input.NullPointer? && input.len != 0 ==>
                status == Failure(InvalidArgument) && Contents() == old(Contents())
      ensures input.NullPointer? && input.len == 0 ==>
                status == Success(()) && Contents() == old(Contents())
      ensures input.View? ==> status == Success(()) && Contents() == old(Contents()) + input.bytes
      ensures input.View? && |input.bytes| + |old(Contents())| <= old(data.Length) ==> data == old(data)
    {
      if input.NullPointer? {
        return if input.len != 0 then Failure(InvalidArgument) else Success(());
      }
      if |input.bytes| == 0 {
        return Success(());
      }
      EnsureWritableBytes(|input.bytes|);
      CopyIn(input.bytes);
      writeIndex := writeIndex + |input.bytes|;
      return Success(());
    }

    /** Copies bytes to the writable area, leaving everything before it alone. */
    method CopyIn(bytes: Bytes)
      requires Valid() && data.Length - writeIndex >= |bytes|
      modifies data
      ensures Contents() == old(Contents())
      ensures data[readIndex..writeIndex + |bytes|] == old(Contents()) + bytes
    {
      for i := 0 to |bytes|
        modifies data
        invariant forall k :: 0 <= k < i ==> data[writeIndex + k] == bytes[k]
        invariant forall k :: readIndex <= k < writeIndex ==> data[k] == old(data[k])
      {
        data[writeIndex + i] := bytes[i];
      }
    }

    method EnsureWritableBytes(len: nat)
      requires Valid()
      modifies this, data
      ensures Valid() && (data == old(data) || fresh(data))
      ensures Contents() == old(Contents())
      ensures data.Length - writeIndex >= len
      ensures len + |old(Contents())| <= old(data.Length) ==> data == old(data)
    {
      if data.Length - writeIndex >= len {
        return;
      }
      if readIndex + (data.Length - writeIndex) >= len {
        MoveToFront();
        return;
      }
      if readIndex != 0 {
        MoveToFront();
      }
      var grown := new Byte[writeIndex + len];
      for i := 0 to writeIndex
        modifies grown
        invariant grown[..i] == data[..i]
      {
        grown[i] := data[i];
      }
      data := grown;
    }

    /** Moves the readable bytes to the start of the array, front to back. */
    method MoveToFront()
      requires Valid()
      modifies this, data
      ensures Valid() && data == old(data)
      ensures readIndex == 0 && writeIndex == |old(Contents())|
      ensures Contents() == old(Contents())
    {
      var readable := writeIndex - readIndex;
      for i := 0 to readable
        modifies data
        invariant forall k :: 0 <= k < i ==> data[k] == old(data[readIndex + k])
        invariant forall k :: readIndex + i <= k < writeIndex ==> data[k] == old(data[k])
      {
        data[i] := data[readIndex + i];
      }
      readIndex, writeIndex := 0, readable;
    }

    method Retrieve(len: nat) returns (status: Result<()>)
      requires Valid()
      modifies this
      ensures Valid() && data == old(data)
      ensures status == if len > |old(Contents())| then Failure(InvalidArgument) else Success(())
      ensures Contents() == if len > |old(Contents())| then old(Contents()) else old(Contents())[len..]
    {
      if len > writeIndex - readIndex {
        return Failure(InvalidArgument);
      }
      if len == writeIndex - readIndex {
        RetrieveAll();
        return Success(());
      }
      readIndex := readIndex + len;
      return Success(());
    }

    method RetrieveAll()
      requires Valid()
      modifies this
      ensures Valid() && data == old(data) && Contents() == []
      ensures readIndex == writeIndex == 0
    {
      readIndex, writeIndex := 0, 0;
    }

    method RetrieveAllAsString() returns (result: Bytes)
      requires Valid()
      modifies this
      ensures Valid() && data == old(data) && Contents() == []
      ensures result == old(Contents())
    {
      result := data[readIndex..writeIndex];
      RetrieveAll();
    }
  }
}
