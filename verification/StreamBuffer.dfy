/** The growable stream buffer: a byte queue kept in a window of one allocation. */
module StreamBuffer {
  import opened Basics

  const MIN_SIZE: nat := 1024

  /** `mempcpy` and the closing NUL, behind what is in the window from `lo`. */
  method CopyIn(a: array<u8>, ghost lo: nat, at: nat, data: seq<u8>)
    requires lo <= at && at + |data| < a.Length
    modifies a
    ensures a[lo..at + |data|] == old(a[lo..at]) + data && a[at + |data|] == 0
  {
    var i := 0;
    while i < |data|
      invariant 0 <= i <= |data|
      invariant a[lo..at + i] == old(a[lo..at]) + data[..i]
    {
      a[at + i] := data[i];
      assert a[lo..at + i + 1] == a[lo..at + i] + [data[i]];
      i := i + 1;
    }
    a[at + |data|] := 0;
  }

  /** `memmove` to the front. */
  method MoveDown(a: array<u8>, off: nat, len: nat)
    requires off + len <= a.Length
    modifies a
    ensures a[0..len] == old(a[off..off + len])
    ensures forall j :: len <= j < a.Length ==> a[j] == old(a[j])
  {
    var i := 0;
    while i < len
      invariant 0 <= i <= len
      invariant forall j :: 0 <= j < i ==> a[j] == old(a[off + j])
      invariant forall j :: i <= j < a.Length ==> a[j] == old(a[j])
    {
      a[i] := a[off + i];
      i := i + 1;
    }
  }

  class Buffer {
    var buf: array?<u8>
    var off: nat
    var len: nat
    /** 0 for no limit. */
    const maxsize: nat

    ghost predicate Valid()
      reads this
    {
      if buf == null then off == 0 && len == 0
      else off + len <= buf.Length && (maxsize != 0 ==> buf.Length <= maxsize)
    }

    function Size(): nat
      reads this
    {
      if buf == null then 0 else buf.Length
    }

    /** The bytes in the queue. */
    function Contents(): seq<u8>
      requires Valid()
      reads this, buf
    {
      if buf == null then [] else buf[off..off + len]
    }

    /** The contents are followed by a NUL, as a reader of the C string expects. */
    ghost predicate Terminated()
      reads this, buf
    {
      buf != null && off + len < buf.Length && buf[off + len] == 0
    }

    constructor (maxsize: nat)
      ensures Valid() && Contents() == [] && this.maxsize == maxsize && buf == null
    {
      buf, off, len := null, 0, 0;
      this.maxsize := maxsize;
    }

    function FreeTail(): nat
      requires Valid()
      reads this
    {
      Size() - off - len
    }

    /** `memmove` to the front of the allocation. Only the contents move, not the NUL behind them. */
    method Compact()
      requires Valid() && buf != null
      modifies this`off, buf
      ensures Valid() && off == 0 && Contents() == old(Contents())
      ensures old(off) == 0 ==> buf[..] == old(buf[..])
      ensures forall i :: len <= i < buf.Length ==> buf[i] == old(buf[i])
    {
      if off == 0 {
        return;
      }
      MoveDown(buf, off, len);
      off := 0;
    }

    /** The doubling loop: the present size if that is enough, and otherwise less than twice what is
        needed, or the least size there is. */
    method Grown(needed: nat) returns (nsize: nat)
      ensures nsize >= needed && nsize >= Size()
      ensures Size() >= needed ==> nsize == Size()
      ensures Size() < needed ==> nsize < 2 * needed || nsize == MIN_SIZE
    {
      nsize := Size();
      while nsize < needed
        invariant nsize >= Size()
        invariant nsize == Size() || (Size() < needed && (nsize < 2 * needed || nsize == MIN_SIZE))
        decreases needed - nsize
      {
        nsize := if nsize > 0 then nsize * 2 else MIN_SIZE;
      }
    }

    method Realloc(nsize: nat)
      requires Valid() && off == 0 && nsize >= len && (maxsize != 0 ==> nsize <= maxsize)
      modifies this`buf
      ensures Valid() && fresh(buf) && buf != null && buf.Length == nsize && Contents() == old(Contents())
    {
      var nbuf := new u8[nsize];
      var i := 0;
      while i < len
        invariant 0 <= i <= len && buf == old(buf)
        invariant forall j :: 0 <= j < i ==> nbuf[j] == buf[j]
      {
        nbuf[i] := buf[i];
        i := i + 1;
      }
      assert buf != null ==> nbuf[0..len] == buf[0..len];
      buf := nbuf;
    }

    /** Make room behind the contents. Fails exactly when the limit forbids it. */
    method GetBuffer(extra: nat) returns (ok: bool)
      requires Valid() && extra > 0
      modifies this, buf
      ensures Valid() && Contents() == old(Contents()) && len == old(len)
      ensures ok <==> !(maxsize != 0 && len + extra > maxsize)
      ensures ok ==> buf != null && FreeTail() >= extra
      ensures buf != old(buf) ==> ok && fresh(buf)
      ensures off == 0 || off == old(off)
      ensures !ok && buf != null && old(Terminated()) ==> (Terminated() <==> old(off == 0 || buf[len] == 0))
    {
      if buf != null {
        if FreeTail() >= extra {
          return true;
        }
        Compact();
        if FreeTail() >= extra {
          return true;
        }
      }
      var nsize := Grown(len + extra);
      if maxsize != 0 && nsize > maxsize {
        nsize := maxsize;
        if nsize < len + extra {
          return false;
        }
      }
      Realloc(nsize);
      return true;
    }

    /** Append; or, when the limit is in the way, leave the contents alone. */
    method Push(data: seq<u8>) returns (ok: bool)
      requires Valid()
      modifies this, buf
      ensures Valid()
      ensures ok <==> !(maxsize != 0 && |old(Contents())| + |data| + 1 > maxsize)
      ensures Contents() == old(Contents()) + if ok then data else []
      ensures ok ==> Terminated()
      ensures !ok && old(Terminated()) ==> (Terminated() <==> old(off == 0 || buf[len] == 0))
      ensures buf != old(buf) ==> fresh(buf)
      ensures off == 0 || off == old(off)
    {
      assert |Contents()| == len;
      ok := GetBuffer(|data| + 1);
      if !ok {
        return;
      }
      Append(data);
    }

    /** Write behind the contents, where there is room. */
    method Append(data: seq<u8>)
      requires Valid() && buf != null && FreeTail() > |data|
      modifies this`len, buf
      ensures Valid() && Contents() == old(Contents()) + data && Terminated()
    {
      CopyIn(buf, off, off + len, data);
      len := len + |data|;
    }

    /** Drop a prefix. The source asserts that there is that much. */
    method Pull(n: nat)
      requires Valid() && n <= |Contents()|
      modifies this`off, this`len
      ensures Valid() && Contents() == old(Contents())[n..] && off == old(off) + n
      ensures Terminated() <==> old(Terminated())
    {
      off := off + n;
      len := len - n;
    }
  }

  /** For every string that does not end in a NUL of its own: pushed into a buffer it just fits, with one
      byte pulled, it loses its terminator to a push that is refused. */
  method LoseTerminator(data: seq<u8>, more: seq<u8>) returns (sb: Buffer)
    requires |data| > 0 && data[|data| - 1] != 0 && |more| > 1
    ensures sb.Valid() && sb.Contents() == data[1..] && sb.buf != null && !sb.Terminated()
  {
    sb := new Buffer(|data| + 1);
    var ok := sb.Push(data);
    assert sb.off == 0 && sb.buf[0..|data|] == data;
    sb.Pull(1);
    assert sb.buf[sb.len] == data[|data| - 1];
    ok := sb.Push(more);
  }
}
