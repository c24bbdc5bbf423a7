/** The artifact file an upload reads, through one reader position and a reused buffer. */
module ArtifactFile {
  import opened ByteStrings

  function Min(a: int, b: int): int {
    if a < b then a else b
  }

  class Reader {
    const data: seq<octet>
    var pos: int

    constructor (data: seq<octet>)
      ensures this.data == data && pos == 0
    {
      this.data := data;
      pos := 0;
    }

    /** file.Seek(offset, io.SeekStart) */
    method Seek(offset: int)
      requires 0 <= offset
      modifies this
      ensures pos == offset
    {
      pos := offset;
    }

    /** io.ReadFull: the whole count, or an error; past the end of the file it is always an error. */
    method ReadFull(buffer: array<octet>, count: int) returns (ok: bool)
      requires 0 <= count <= buffer.Length && 0 <= pos
      modifies this, buffer
      ensures 0 <= pos
      ensures ok ==> old(pos) + count <= |data| && pos == old(pos) + count
      ensures ok ==> buffer[..count] == data[old(pos)..pos]
      ensures ok ==> forall i :: count <= i < buffer.Length ==> buffer[i] == old(buffer[i])
    {
      var fail := *;
      if pos + count > |data| || fail {
        return false;
      }
      for i := 0 to count
        invariant pos == old(pos)
        invariant forall k :: 0 <= k < i ==> buffer[k] == data[pos + k]
        invariant forall k :: i <= k < buffer.Length ==> buffer[k] == old(buffer[k])
      {
        buffer[i] := data[pos + i];
      }
      pos := pos + count;
      return true;
    }
  }
}
