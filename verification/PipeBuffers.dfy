/** The growing buffer of src/pipe.c, and that it does what the process model's pipes do. */
module PipeBuffers {
  import opened Bytes
  import opened ByteMoves
  import ProcessState

  const BUFSIZE: nat := 1024

  /** How many bytes a read that asks for `count` gets. */
  function Oldest(p: ProcessState.Pipe, count: nat): (n: nat)
    ensures n <= |p.data|
  {
    if count < |p.data| then count else |p.data|
  }

  class PipeBuffer {
    var reading: bool
    var writing: bool
    var alloc: nat
    var len: nat
    var readpid: int
    var data: array<Byte>
    ghost var written: seq<Byte> // all bytes ever written
    ghost var taken: seq<Byte>   // all bytes ever read

    ghost predicate Valid()
      reads this, data
    {
      && len <= alloc == data.Length < 0x1_0000_0000
      && alloc > 0
      && taken + data[..len] == written
    }

    /** The pipe of the process model that this buffer stands for. */
    ghost function Abstract(): ProcessState.Pipe
      requires Valid()
      reads this, data
    {
      ProcessState.Pipe(reading, writing, readpid, data[..len], written, taken)
    }

    constructor ()
      ensures Valid() && fresh(data) && Abstract() == ProcessState.FreshPipe()
    {
      reading, writing, readpid := true, true, -1;
      alloc, len := BUFSIZE, 0;
      data := new Byte[BUFSIZE];
      written, taken := [], [];
    }

    /** The smallest doubling of the buffer that holds `need` bytes, holding what it held. */
    method Grow(need: nat)
      requires Valid() && alloc < need < ProcessState.PIPE_LIMIT
      modifies this`alloc, this`data
      ensures Valid() && fresh(data) && need <= alloc < 2 * need
      ensures data[..len] == old(data[..len])
    {
      while need > alloc
        invariant 0 < old(alloc) <= alloc && (alloc > old(alloc) ==> alloc < 2 * need)
        invariant data == old(data) && len == old(len)
        decreases need - alloc
      {
        alloc := alloc * 2;
      }
      var newdata := new Byte[alloc];
      CopyIn(newdata, 0, data[..len]);
      assert newdata[..len] == data[..len];
      data := newdata;
    }

    /** write_to_pipe up to the wake-up, which the process model has. */
    method Write(buf: seq<Byte>)
      requires Valid() && |Abstract().data| + |buf| < ProcessState.PIPE_LIMIT
      modifies this, data
      ensures Valid() && (data == old(data) || fresh(data))
      ensures Abstract() == ProcessState.Append(old(Abstract()), buf)
      ensures alloc == old(alloc) || alloc < 2 * len
    {
      if len + |buf| > alloc {
        Grow(len + |buf|);
      }
      ghost var s := data[..];
      CopyIn(data, len, buf);
      assert data[..len + |buf|] == s[..len] + buf;
      len := len + |buf|;
      written := written + buf;
    }

    /** The branch of pipe_reader_read that has bytes to give: the oldest ones, at most `count`. */
    method Read(count: nat) returns (bytes: seq<Byte>)
      requires Valid() && Abstract().data != []
      modifies this, data
      ensures Valid() && data == old(data)
      ensures bytes == old(Abstract()).data[..Oldest(old(Abstract()), count)]
      ensures Abstract() == ProcessState.Take(old(Abstract()), Oldest(old(Abstract()), count))
    {
      var copy := if count < len then count else len;
      bytes := data[..copy];
      ghost var s := data[..];
      assert data[..len] == s[..len];
      ShiftOut(copy);
      Taken(s, data[..], copy, len - copy, written, taken);
      len := len - copy;
      taken := taken + bytes;
      assert data[..len] == data[..][..len];
    }

    /** The bytes behind the first `copy` move to the front. */
    method ShiftOut(copy: nat)
      requires copy <= len <= data.Length
      modifies data
      ensures data[..][..len - copy] == old(data[..])[copy..len]
    {
      hide Forward;
      hide Moved;
      hide Repeats;
      ghost var s := data[..];
      if len > copy {
        MemMove(data, 0, copy, len - copy);
        MemMoveRight(s, 0, copy, len - copy);
      }
      Shifted(s, data[..], copy, len - copy);
    }

    method SetReader(pid: int)
      requires Valid()
      modifies this`readpid
      ensures Valid() && Abstract() == old(Abstract()).(readpid := pid)
    {
      readpid := pid;
    }

    method ShutReading()
      requires Valid()
      modifies this`reading
      ensures Valid() && Abstract() == old(Abstract()).(reading := false)
    {
      reading := false;
    }

    method ShutWriting()
      requires Valid()
      modifies this`writing
      ensures Valid() && Abstract() == old(Abstract()).(writing := false)
    {
      writing := false;
    }
  }

  /** All pipe buffers, by the names that handles know them by. */
  class PipeStore {
    var buffers: map<int, PipeBuffer>
    ghost var pipes: map<int, ProcessState.Pipe> // what they stand for
    ghost var Repr: set<object>

    ghost predicate Valid()
      reads this, Repr
    {
      && this in Repr && pipes.Keys == buffers.Keys
      && (forall q :: q in buffers ==> buffers[q] in Repr && buffers[q].data in Repr)
      && (forall q :: q in buffers ==> buffers[q].Valid() && buffers[q].Abstract() == pipes[q])
      && (forall q, k :: q in buffers && k in buffers && q != k ==>
            buffers[q] != buffers[k] && buffers[q].data != buffers[k].data)
    }

    constructor ()
      ensures Valid() && fresh(Repr) && pipes == map[]
    {
      buffers, pipes, Repr := map[], map[], {this};
    }

    lemma Seen(q: int)
      requires Valid() && q in pipes
      ensures q in buffers && buffers[q].Valid() && buffers[q].Abstract() == pipes[q]
      ensures buffers[q] in Repr && buffers[q].data in Repr
    {
    }

    method New(q: int)
      requires Valid() && q !in pipes
      modifies this
      ensures Valid() && old(Repr) <= Repr && fresh(Repr - old(Repr))
      ensures pipes == old(pipes)[q := ProcessState.FreshPipe()]
    {
      hide PipeBuffer.Valid;
      hide PipeBuffer.Abstract;
      var b := new PipeBuffer();
      buffers, pipes := buffers[q := b], pipes[q := b.Abstract()];
      Repr := Repr + {b, b.data};
    }

    method Free(q: int)
      requires Valid() && q in pipes
      modifies this
      ensures Valid() && Repr == old(Repr) && pipes == old(pipes) - {q}
    {
      hide PipeBuffer.Valid;
      hide PipeBuffer.Abstract;
      buffers, pipes := buffers - {q}, pipes - {q};
    }

    method Write(q: int, bytes: seq<Byte>)
      requires Valid() && q in pipes && |pipes[q].data| + |bytes| < ProcessState.PIPE_LIMIT
      modifies Repr
      ensures Valid() && old(Repr) <= Repr && fresh(Repr - old(Repr))
      ensures pipes == old(pipes)[q := ProcessState.Append(old(pipes)[q], bytes)]
    {
      hide PipeBuffer.Valid;
      hide PipeBuffer.Abstract;
      var b := buffers[q];
      b.Write(bytes);
      Repr := Repr + {b.data};
      pipes := pipes[q := b.Abstract()];
    }

    method Read(q: int, count: nat) returns (bytes: seq<Byte>)
      requires Valid() && q in pipes && pipes[q].data != []
      modifies Repr
      ensures Valid() && Repr == old(Repr)
      ensures bytes == old(pipes)[q].data[..Oldest(old(pipes)[q], count)]
      ensures pipes == old(pipes)[q := ProcessState.Take(old(pipes)[q], Oldest(old(pipes)[q], count))]
    {
      hide Oldest;
      hide ProcessState.Take;
      hide PipeBuffer.Valid;
      hide PipeBuffer.Abstract;
      var b := buffers[q];
      bytes := b.Read(count);
      pipes := pipes[q := b.Abstract()];
    }

    method SetReader(q: int, pid: int)
      requires Valid() && q in pipes
      modifies Repr
      ensures Valid() && Repr == old(Repr) && pipes == old(pipes)[q := old(pipes)[q].(readpid := pid)]
    {
      hide PipeBuffer.Valid;
      hide PipeBuffer.Abstract;
      var b := buffers[q];
      b.SetReader(pid);
      pipes := pipes[q := b.Abstract()];
    }

    method ShutReading(q: int)
      requires Valid() && q in pipes
      modifies Repr
      ensures Valid() && Repr == old(Repr) && pipes == old(pipes)[q := old(pipes)[q].(reading := false)]
    {
      hide PipeBuffer.Valid;
      hide PipeBuffer.Abstract;
      var b := buffers[q];
      b.ShutReading();
      pipes := pipes[q := b.Abstract()];
    }

    method ShutWriting(q: int)
      requires Valid() && q in pipes
      modifies Repr
      ensures Valid() && Repr == old(Repr) && pipes == old(pipes)[q := old(pipes)[q].(writing := false)]
    {
      hide PipeBuffer.Valid;
      hide PipeBuffer.Abstract;
      var b := buffers[q];
      b.ShutWriting();
      pipes := pipes[q := b.Abstract()];
    }
  }

  lemma Shifted(s: seq<Byte>, t: seq<Byte>, copy: nat, len: nat)
    requires copy + len <= |s| && (if len > 0 then t == Moved(s, 0, copy, len) else t == s)
    ensures t[..len] == s[copy..copy + len]
  {
  }

  lemma Taken(s: seq<Byte>, t: seq<Byte>, copy: nat, len: nat, written: seq<Byte>, taken: seq<Byte>)
    requires copy + len <= |s| && len <= |t| && t[..len] == s[copy..copy + len] && taken + s[..copy + len] == written
    ensures (taken + s[..copy]) + t[..len] == written
    ensures s[..copy + len][..copy] == s[..copy] && s[..copy + len][copy..] == t[..len]
  {
    assert s[..copy + len] == s[..copy] + s[copy..copy + len];
  }
}
