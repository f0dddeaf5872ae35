/** `read` and `write` that move as much as they can without blocking, on one buffer and on a
    sequence of buffers, over a kernel that may move any part of what it is asked. */
module Transfer {
  import opened Helpers

  type Byte = bv8

  const EAGAIN: nat := 11 // and EWOULDBLOCK

  /** An answer of `::read`: at most `most` of the bytes that are to come, or an error. */
  datatype ReadAnswer = Ready(most: nat) | ReadError(errno: nat)

  /** An answer of `::write` to a non-empty range: `extra + 1` bytes or as many as there are, or an error. */
  datatype WriteAnswer = Takes(extra: nat) | WriteError(errno: nat)

  /** A buffer: a range of the program's memory. */
  datatype Buffer = Buffer(off: nat, len: nat)

  /** The error code that the caller sees: would-block is not an error. */
  function Reported(errno: nat): Option<nat> {
    if errno == EAGAIN then None else Some(errno)
  }

  // ---- reading ----

  /** A non-blocking descriptor for reading: the bytes that will come through it and the answers
      that the kernel will give; it answers would-block when those are used up. */
  class Source {
    var stream: seq<Byte>
    var answers: seq<ReadAnswer>
    ghost var last: ReadAnswer     // the latest answer
    ghost var stops: nat           // the answers so far that moved nothing

    constructor (stream: seq<Byte>, answers: seq<ReadAnswer>)
      ensures this.stream == stream && this.answers == answers && stops == 0
    {
      this.stream, this.answers := stream, answers;
      stops := 0;
      last := Ready(0);
    }

    /** `::read`: the number of bytes taken from the stream and stored, or -1 and the error. */
    method Read(mem: array<Byte>, off: nat, size: nat) returns (result: int, errno: nat)
      requires 0 < size && off + size <= mem.Length
      modifies this, mem
      ensures last == if old(answers) == [] then ReadError(EAGAIN) else old(answers)[0]
      ensures answers == if old(answers) == [] then [] else old(answers)[1..]
      ensures match last
              case ReadError(e) => result == -1 && errno == e && stream == old(stream)
              case Ready(most) =>
                && 0 <= result == Min(most, Min(size, |old(stream)|))
                && mem[off..off + result] == old(stream)[..result] && stream == old(stream)[result..]
      ensures stops == old(stops) + One(result <= 0)
      ensures forall i :: 0 <= i < mem.Length && !(off <= i < off + result) ==> mem[i] == old(mem[i])
    {
      var answer := ReadError(EAGAIN);
      if answers != [] {
        answer := answers[0];
        answers := answers[1..];
      }
      last := answer;
      errno := 0;
      match answer
      case ReadError(e) =>
        result, errno := -1, e;
        stops := stops + 1;
      case Ready(most) =>
        var n := Min(most, Min(size, |stream|));
        forall i | 0 <= i < n {
          mem[off + i] := stream[i];
        }
        result := n;
        stream := stream[n..];
        stops := stops + One(n == 0);
    }

    /** The kernel has something to give until the stream ends. */
    ghost predicate Supplies()
      reads this
    {
      |stream| <= |answers| && forall a :: a in answers ==> a.Ready? && a.most > 0
    }

    /** Whether the latest answer lets a transfer end short, and the error code it reports. */
    ghost predicate EndsShort(ec: Option<nat>)
      reads this
    {
      match last
      case ReadError(e) => ec == Reported(e)
      case Ready(most) => (most == 0 || stream == []) && ec == None
    }
  }

  /** `read` into one buffer. */
  method Read(fd: Source, mem: array<Byte>, off: nat, size: nat) returns (retr: nat, ec: Option<nat>)
    requires off + size <= mem.Length
    modifies fd, mem
    ensures retr <= size && retr <= |old(fd.stream)|
    ensures mem[off..off + retr] == old(fd.stream)[..retr] && fd.stream == old(fd.stream)[retr..]
    ensures forall i :: 0 <= i < mem.Length && !(off <= i < off + retr) ==> mem[i] == old(mem[i])
    ensures if retr < size then fd.EndsShort(ec) && fd.stops == old(fd.stops) + 1
            else ec == None && fd.stops == old(fd.stops)
    ensures old(fd.Supplies()) ==> fd.Supplies() && retr == Min(size, |old(fd.stream)|)
  {
    ec := None;
    retr := 0;
    var ptr, left := off, size;
    while left > 0
      invariant 0 <= left && retr + left == size && ptr == off + retr && retr <= |old(fd.stream)|
      invariant ec == None && fd.stops == old(fd.stops)
      invariant mem[off..off + retr] == old(fd.stream)[..retr] && fd.stream == old(fd.stream)[retr..]
      invariant forall i :: 0 <= i < mem.Length && !(off <= i < off + retr) ==> mem[i] == old(mem[i])
      invariant old(fd.Supplies()) ==> fd.Supplies()
      decreases left
    {
      ghost var before := mem[off..off + retr];
      var result, errno := fd.Read(mem, ptr, left);
      assert mem[off..off + retr] == before;
      assert forall a, b :: 0 <= a <= b <= mem.Length ==> mem[..][a..b] == mem[a..b];
      if result == -1 {
        if errno != EAGAIN {
          ec := Some(errno);
        }
        return;
      }
      if result == 0 {
        break;
      }
      Came(mem[..], off, retr, result, old(fd.stream));
      retr := retr + result;
      ptr := ptr + result;
      left := left - result;
    }
  }

  /** What is in the buffer is what has come through, one answer further. */
  lemma Came(mem: seq<Byte>, off: nat, retr: nat, n: nat, stream: seq<Byte>)
    requires off + retr + n <= |mem| && retr + n <= |stream|
    requires mem[off..off + retr] == stream[..retr] && mem[off + retr..off + retr + n] == stream[retr..][..n]
    ensures mem[off..off + retr + n] == stream[..retr + n] && stream[retr..][n..] == stream[retr + n..]
  {
    Onwards(stream, retr, n);
    assert mem[off..off + retr + n] == mem[off..off + retr] + mem[off + retr..off + retr + n];
  }

  lemma Onwards<T>(s: seq<T>, i: nat, n: nat)
    requires i + n <= |s|
    ensures s[i..][n..] == s[i + n..] && s[..i] + s[i..][..n] == s[..i + n]
  {
  }

  // ---- sequences of buffers ----

  function Total(bufs: seq<Buffer>): nat {
    if bufs == [] then 0 else Total(bufs[..|bufs| - 1]) + bufs[|bufs| - 1].len
  }

  predicate InMemory(bufs: seq<Buffer>, size: nat) {
    forall b :: b in bufs ==> b.off + b.len <= size
  }

  predicate Overlap(a: Buffer, b: Buffer) {
    0 < a.len && 0 < b.len && a.off < b.off + b.len && b.off < a.off + a.len
  }

  ghost predicate Disjoint(bufs: seq<Buffer>) {
    forall i, j :: 0 <= i < j < |bufs| ==> !Overlap(bufs[i], bufs[j])
  }

  /** The buffers' contents, one after the other. */
  function Gather(mem: seq<Byte>, bufs: seq<Buffer>): (s: seq<Byte>)
    requires InMemory(bufs, |mem|)
    ensures |s| == Total(bufs)
  {
    if bufs == [] then []
    else
      var b := bufs[|bufs| - 1];
      assert b in bufs && forall c :: c in bufs[..|bufs| - 1] ==> c in bufs;
      Gather(mem, bufs[..|bufs| - 1]) + mem[b.off..b.off + b.len]
  }

  lemma {:induction false} TotalPrefix(bufs: seq<Buffer>, i: nat)
    requires i <= |bufs|
    ensures Total(bufs[..i]) <= Total(bufs)
    decreases |bufs|
  {
    if i < |bufs| {
      TotalPrefix(bufs[..|bufs| - 1], i);
      assert bufs[..|bufs| - 1][..i] == bufs[..i];
    } else {
      assert bufs[..i] == bufs;
    }
  }

  lemma {:induction false} GatherPrefix(mem: seq<Byte>, bufs: seq<Buffer>, i: nat)
    requires i <= |bufs| && InMemory(bufs, |mem|)
    ensures InMemory(bufs[..i], |mem|) && Gather(mem, bufs[..i]) <= Gather(mem, bufs)
    decreases |bufs|
  {
    if i < |bufs| {
      assert InMemory(bufs[..|bufs| - 1], |mem|);
      GatherPrefix(mem, bufs[..|bufs| - 1], i);
      assert bufs[..|bufs| - 1][..i] == bufs[..i];
    } else {
      assert bufs[..i] == bufs;
    }
  }

  /** Storing outside the buffers does not change what they hold. */
  lemma {:induction false} GatherFrame(mem: seq<Byte>, mem': seq<Byte>, bufs: seq<Buffer>)
    requires |mem| == |mem'| && InMemory(bufs, |mem|)
    requires forall b, i :: b in bufs && b.off <= i < b.off + b.len ==> mem[i] == mem'[i]
    ensures Gather(mem, bufs) == Gather(mem', bufs)
    decreases |bufs|
  {
    if bufs != [] {
      var b := bufs[|bufs| - 1];
      assert b in bufs && forall c :: c in bufs[..|bufs| - 1] ==> c in bufs;
      GatherFrame(mem, mem', bufs[..|bufs| - 1]);
      assert mem[b.off..b.off + b.len] == mem'[b.off..b.off + b.len];
    }
  }

  /** One more buffer. */
  lemma GatherAppend(mem: seq<Byte>, front: seq<Buffer>, b: Buffer)
    requires InMemory(front, |mem|) && b.off + b.len <= |mem|
    ensures InMemory(front + [b], |mem|)
    ensures Gather(mem, front + [b]) == Gather(mem, front) + mem[b.off..b.off + b.len]
  {
    var all := front + [b];
    assert all[..|all| - 1] == front && all[|all| - 1] == b;
    hide InMemory;
  }

  lemma InMemoryPrefix(bufs: seq<Buffer>, i: nat, size: nat)
    requires InMemory(bufs, size) && i < |bufs|
    ensures InMemory(bufs[..i], size) && bufs[i].off + bufs[i].len <= size
    ensures bufs[..i + 1] == bufs[..i] + [bufs[i]]
  {
    assert bufs[i] in bufs;
  }

  lemma Cut<T>(whole: seq<T>, front: seq<T>, piece: seq<T>, n: nat, base: seq<T>, now: seq<T>)
    requires front + piece <= whole && n <= |piece|
    requires now == base + front + piece[..n]
    ensures now == base + whole[..|front| + n]
    ensures n == |piece| ==> now == base + (front + piece)
  {
    var cut := front + piece;
    assert whole[..|cut|] == cut;
    assert whole[..|front| + n] == cut[..|front| + n] == front + piece[..n];
  }

  lemma GatherParts(mem: seq<Byte>, bufs: seq<Buffer>, i: nat)
    requires InMemory(bufs, |mem|) && i < |bufs|
    ensures InMemory(bufs[..i], |mem|) && bufs[i].off + bufs[i].len <= |mem|
    ensures Gather(mem, bufs[..i]) + mem[bufs[i].off..bufs[i].off + bufs[i].len] <= Gather(mem, bufs)
  {
    hide Gather, Total;
    InMemoryPrefix(bufs, i, |mem|);
    GatherPrefix(mem, bufs, i + 1);
    GatherAppend(mem, bufs[..i], bufs[i]);
  }

  /** Moving the first `n` bytes of a buffer goes on where the buffers before it ended. */
  lemma GatherNext(mem: seq<Byte>, bufs: seq<Buffer>, i: nat, n: nat, base: seq<Byte>, now: seq<Byte>)
    requires InMemory(bufs, |mem|) && i < |bufs| && n <= bufs[i].len
    requires InMemory(bufs[..i], |mem|) && bufs[i].off + bufs[i].len <= |mem|
    requires now == base + Gather(mem, bufs[..i]) + mem[bufs[i].off..bufs[i].off + n]
    ensures |Gather(mem, bufs[..i])| + n <= |Gather(mem, bufs)|
    ensures now == base + Gather(mem, bufs)[..|Gather(mem, bufs[..i])| + n]
    ensures n == bufs[i].len ==> InMemory(bufs[..i + 1], |mem|) && now == base + Gather(mem, bufs[..i + 1])
  {
    var b := bufs[i];
    InMemoryPrefix(bufs, i, |mem|);
    GatherPrefix(mem, bufs, i + 1);
    GatherAppend(mem, bufs[..i], b);
    hide *;
    var piece := mem[b.off..b.off + b.len];
    assert piece[..n] == mem[b.off..b.off + n];
    Cut(Gather(mem, bufs), Gather(mem, bufs[..i]), piece, n, base, now);
  }

  lemma TotalNext(bufs: seq<Buffer>, i: nat)
    requires i < |bufs|
    ensures Total(bufs[..i]) + bufs[i].len == Total(bufs[..i + 1]) <= Total(bufs)
  {
    assert bufs[..i + 1][..i] == bufs[..i];
    TotalPrefix(bufs, i + 1);
  }

  /** Storing into one buffer leaves the ones before it alone when none overlap. */
  lemma GatherBefore(mem: seq<Byte>, mem': seq<Byte>, bufs: seq<Buffer>, i: nat)
    requires |mem| == |mem'| && InMemory(bufs, |mem|) && i < |bufs| && Disjoint(bufs)
    requires forall k :: 0 <= k < |mem| && !(bufs[i].off <= k < bufs[i].off + bufs[i].len) ==> mem[k] == mem'[k]
    ensures InMemory(bufs[..i], |mem|) && Gather(mem, bufs[..i]) == Gather(mem', bufs[..i])
  {
    GatherPrefix(mem, bufs, i);
    forall b, k | b in bufs[..i] && b.off <= k < b.off + b.len
      ensures mem[k] == mem'[k]
    {
      var j :| 0 <= j < i && bufs[j] == b;
      assert !Overlap(bufs[j], bufs[i]);
      assert b in bufs[..i];
    }
    GatherFrame(mem, mem', bufs[..i]);
  }

  /** Whether a place in memory is inside one of the buffers. */
  predicate Inside(bufs: seq<Buffer>, k: int) {
    exists b :: b in bufs && b.off <= k < b.off + b.len
  }

  lemma GatherEnds(mem: seq<Byte>, bufs: seq<Buffer>)
    requires InMemory(bufs, |mem|)
    ensures InMemory(bufs[..0], |mem|) && Gather(mem, bufs[..0]) == [] && Total(bufs[..0]) == 0
    ensures bufs[..|bufs|] == bufs && Gather(mem, bufs)[..Total(bufs)] == Gather(mem, bufs)
  {
  }

  /** `read` into a sequence of buffers. */
  method ReadAll(fd: Source, mem: array<Byte>, bufs: seq<Buffer>) returns (retr: nat, ec: Option<nat>)
    requires InMemory(bufs, mem.Length)
    modifies fd, mem
    ensures retr <= Total(bufs) && retr <= |old(fd.stream)| && fd.stream == old(fd.stream)[retr..]
    ensures Disjoint(bufs) ==> Gather(mem[..], bufs)[..retr] == old(fd.stream)[..retr]
    ensures forall k :: 0 <= k < mem.Length && !Inside(bufs, k) ==> mem[k] == old(mem[k])
    ensures if retr < Total(bufs) then fd.EndsShort(ec) && fd.stops == old(fd.stops) + 1
            else ec == None && fd.stops == old(fd.stops)
    ensures old(fd.Supplies()) ==> fd.Supplies() && retr == Min(Total(bufs), |old(fd.stream)|)
  {
    hide Gather, Total, Disjoint, Source.EndsShort, Source.Supplies;
    ec := None;
    retr := 0;
    GatherEnds(mem[..], bufs);
    var i := 0;
    while i < |bufs|
      invariant 0 <= i <= |bufs| && InMemory(bufs[..i], mem.Length)
      invariant retr == Total(bufs[..i]) && ec == None && fd.stops == old(fd.stops)
      invariant retr <= |old(fd.stream)| && fd.stream == old(fd.stream)[retr..]
      invariant Disjoint(bufs) ==> Gather(mem[..], bufs[..i]) == old(fd.stream)[..retr]
      invariant old(fd.Supplies()) ==> fd.Supplies()
      invariant forall k :: 0 <= k < mem.Length && !Inside(bufs, k) ==> mem[k] == old(mem[k])
    {
      var buffer := bufs[i];
      ghost var before := mem[..];
      assert buffer in bufs;
      var read: nat;
      read, ec := Read(fd, mem, buffer.off, buffer.len);
      TotalNext(bufs, i);
      Onwards(old(fd.stream), retr, read);
      if Disjoint(bufs) {
        GatherBefore(before, mem[..], bufs, i);
        assert mem[..][buffer.off..buffer.off + read] == mem[buffer.off..buffer.off + read];
        GatherNext(mem[..], bufs, i, read, [], old(fd.stream)[..retr + read]);
      }
      retr := retr + read;
      if ec != None {
        return;
      }
      if read != buffer.len {
        return;
      }
      i := i + 1;
    }
    GatherEnds(mem[..], bufs);
  }

  lemma At<T>(whole: seq<T>, front: seq<T>, mem: seq<T>, b: Buffer, k: nat)
    requires b.off + b.len <= |mem| && front + mem[b.off..b.off + b.len] <= whole && b.off <= k < b.off + b.len
    ensures whole[|front| + (k - b.off)] == mem[k]
  {
    var piece := mem[b.off..b.off + b.len];
    assert whole[|front| + (k - b.off)] == (front + piece)[|front| + (k - b.off)] == piece[k - b.off];
  }

  /** Where a byte of a buffer is among all the buffers' bytes. */
  lemma GatherAt(mem: seq<Byte>, bufs: seq<Buffer>, i: nat, k: nat)
    requires InMemory(bufs, |mem|) && i < |bufs| && bufs[i].off <= k < bufs[i].off + bufs[i].len
    ensures Total(bufs[..i]) <= Total(bufs[..i]) + (k - bufs[i].off) < Total(bufs[..i + 1]) <= Total(bufs)
    ensures k < |mem| && Gather(mem, bufs)[Total(bufs[..i]) + (k - bufs[i].off)] == mem[k]
  {
    TotalNext(bufs, i);
    GatherParts(mem, bufs, i);
    var whole, front := Gather(mem, bufs), Gather(mem, bufs[..i]);
    hide *;
    At(whole, front, mem, bufs[i], k);
  }

  /** Where the byte `k` of memory, in the buffers `i` and `j`, is among all the buffers' bytes. */
  lemma SharedPlaces(bufs: seq<Buffer>, i: nat, j: nat, k: nat)
    requires i < j < |bufs|
    requires bufs[i].off <= k < bufs[i].off + bufs[i].len && bufs[j].off <= k < bufs[j].off + bufs[j].len
    ensures Total(bufs[..i]) + (k - bufs[i].off) < Total(bufs[..j]) + (k - bufs[j].off) < Total(bufs)
  {
    TotalNext(bufs, i);
    TotalNext(bufs, j);
    TotalPrefix(bufs[..j], i + 1);
    assert bufs[..j][..i + 1] == bufs[..i + 1];
  }

  /** A byte that two buffers share, if they overlap. */
  function SharedByte(a: Buffer, b: Buffer): nat {
    Max(a.off, b.off)
  }

  /** A stream that gives different values to a byte that the buffers `i` and `j` share. */
  function Clashing(bufs: seq<Buffer>, i: nat, j: nat): (stream: seq<Byte>)
    requires i < j < |bufs|
    ensures |stream| == Total(bufs)
  {
    var q := Total(bufs[..j]) + (SharedByte(bufs[i], bufs[j]) - bufs[j].off);
    seq(Total(bufs), n => if n == q then 1 else 0)
  }

  lemma ClashingIsLost(bufs: seq<Buffer>, i: nat, j: nat, mem: seq<Byte>)
    requires InMemory(bufs, |mem|) && i < j < |bufs| && Overlap(bufs[i], bufs[j])
    ensures Gather(mem, bufs) != Clashing(bufs, i, j)
  {
    var k := SharedByte(bufs[i], bufs[j]);
    var p, q := Total(bufs[..i]) + (k - bufs[i].off), Total(bufs[..j]) + (k - bufs[j].off);
    SharedPlaces(bufs, i, j, k);
    assert Clashing(bufs, i, j)[p] != Clashing(bufs, i, j)[q];
    GatherAt(mem, bufs, i, k);
    GatherAt(mem, bufs, j, k);
  }

  /** `ReadAll` keeps what it read whenever no two buffers overlap; when two do, there is a stream that
      no memory at all can hold in them, and a read that takes all of it and reports success. */
  method OverlappingRead(mem: array<Byte>, bufs: seq<Buffer>)
    returns (fd: Source, stream: seq<Byte>, retr: nat, ec: Option<nat>)
    requires InMemory(bufs, mem.Length) && !Disjoint(bufs)
    modifies mem
    ensures fresh(fd) && |stream| == retr == Total(bufs) && ec == None && fd.stream == []
    ensures forall m: seq<Byte> :: |m| == mem.Length ==> Gather(m, bufs) != stream
  {
    var i, j :| 0 <= i < j < |bufs| && Overlap(bufs[i], bufs[j]);
    hide Gather, Total, InMemory, Disjoint, Overlap, Clashing;
    stream := Clashing(bufs, i, j);
    forall m: seq<Byte> | |m| == mem.Length
      ensures Gather(m, bufs) != stream
    {
      ClashingIsLost(bufs, i, j, m);
    }
    fd := new Source(stream, seq(|stream|, _ => Ready(1)));
    retr, ec := ReadAll(fd, mem, bufs);
  }

  // ---- writing ----

  /** A non-blocking descriptor for writing; it answers would-block when the answers are used up. */
  class Sink {
    var answers: seq<WriteAnswer>
    var moved: seq<Byte>           // the bytes taken so far
    ghost var last: WriteAnswer
    ghost var stops: nat

    constructor (answers: seq<WriteAnswer>)
      ensures this.answers == answers && moved == [] && stops == 0
    {
      this.answers := answers;
      moved, stops := [], 0;
      last := Takes(0);
    }

    /** `::write`: the number of bytes taken, or -1 and the error. */
    method Write(mem: array<Byte>, off: nat, size: nat) returns (result: int, errno: nat)
      requires 0 < size && off + size <= mem.Length
      modifies this
      ensures last == if old(answers) == [] then WriteError(EAGAIN) else old(answers)[0]
      ensures answers == if old(answers) == [] then [] else old(answers)[1..]
      ensures match last
              case WriteError(e) => result == -1 && errno == e && moved == old(moved) && stops == old(stops) + 1
              case Takes(extra) =>
                && result == Min(extra + 1, size) > 0
                && moved == old(moved) + mem[off..off + result] && stops == old(stops)
    {
      var answer := WriteError(EAGAIN);
      if answers != [] {
        answer := answers[0];
        answers := answers[1..];
      }
      last := answer;
      errno := 0;
      match answer
      case WriteError(e) =>
        result, errno := -1, e;
        stops := stops + 1;
      case Takes(extra) =>
        var n := Min(extra + 1, size);
        result := n;
        moved := moved + mem[off..off + n];
    }

    ghost predicate EndsShort(ec: Option<nat>)
      reads this
    {
      last.WriteError? && ec == Reported(last.errno)
    }
  }

  /** `write` from one buffer. */
  method Write(fd: Sink, mem: array<Byte>, off: nat, size: nat) returns (retr: nat, ec: Option<nat>)
    requires off + size <= mem.Length
    modifies fd
    ensures retr <= size
    ensures fd.moved == old(fd.moved) + mem[off..off + retr]
    ensures if retr < size then fd.EndsShort(ec) && fd.stops == old(fd.stops) + 1
            else ec == None && fd.stops == old(fd.stops)
  {
    ec := None;
    retr := 0;
    var ptr, left := off, size;
    while left > 0
      invariant 0 <= left && retr + left == size && ptr == off + retr
      invariant ec == None && fd.stops == old(fd.stops)
      invariant fd.moved == old(fd.moved) + mem[off..off + retr]
      decreases left
    {
      var result, errno := fd.Write(mem, ptr, left);
      if result == -1 {
        if errno != EAGAIN {
          ec := Some(errno);
        }
        return;
      }
      assert mem[off..off + retr + result] == mem[off..off + retr] + mem[ptr..ptr + result];
      retr := retr + result;
      ptr := ptr + result;
      left := left - result;
    }
  }

  /** `write` from a sequence of buffers, which may overlap. */
  method WriteAll(fd: Sink, mem: array<Byte>, bufs: seq<Buffer>) returns (retr: nat, ec: Option<nat>)
    requires InMemory(bufs, mem.Length)
    modifies fd
    ensures retr <= Total(bufs)
    ensures fd.moved == old(fd.moved) + Gather(mem[..], bufs)[..retr]
    ensures if retr < Total(bufs) then fd.EndsShort(ec) && fd.stops == old(fd.stops) + 1
            else ec == None && fd.stops == old(fd.stops)
  {
    hide Gather, Total, Sink.EndsShort;
    ec := None;
    retr := 0;
    GatherEnds(mem[..], bufs);
    var i := 0;
    while i < |bufs|
      invariant 0 <= i <= |bufs| && InMemory(bufs[..i], mem.Length)
      invariant retr == Total(bufs[..i]) && ec == None && fd.stops == old(fd.stops)
      invariant fd.moved == old(fd.moved) + Gather(mem[..], bufs[..i])
    {
      var buffer := bufs[i];
      assert buffer in bufs;
      var written: nat;
      written, ec := Write(fd, mem, buffer.off, buffer.len);
      TotalNext(bufs, i);
      assert mem[..][buffer.off..buffer.off + written] == mem[buffer.off..buffer.off + written];
      GatherNext(mem[..], bufs, i, written, old(fd.moved), fd.moved);
      retr := retr + written;
      if ec != None {
        return;
      }
      if written != buffer.len {
        return;
      }
      i := i + 1;
    }
    GatherEnds(mem[..], bufs);
  }
}
