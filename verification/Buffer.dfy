/** The byte buffer of a connection: reader and writer indices over a growing
    array, compacted in place. `Layout` is what the buffer means; the class works
    on the array. */
module BufferModel {

  newtype Byte = x: int | 0 <= x < 256

  const CHEAP_PREPEND: nat := 8
  const INITIAL_SIZE: nat := 1024
  /** Size of the side buffer on readFd's stack. */
  const EXTRA_BUF: nat := 65536

  function Max(a: nat, b: nat): nat {
    if a < b then b else a
  }

  /** The array's size, the reader index and the readable bytes. */
  datatype Layout = Layout(size: nat, reader: nat, content: seq<Byte>) {
    function Writer(): nat {
      reader + |content|
    }

    predicate Ok() {
      CHEAP_PREPEND <= reader && Writer() <= size
    }

    function Writable(): nat
      requires Ok()
    {
      size - Writer()
    }

    function MakeSpace(len: nat): (r: Layout)
      requires Ok()
      ensures r.Ok() && r.content == content && len <= r.Writable()
    {
      if Writable() + reader < len + CHEAP_PREPEND
      then this.(size := Writer() + len)
      else this.(reader := CHEAP_PREPEND)
    }

    function EnsureWritable(len: nat): (r: Layout)
      requires Ok()
      ensures r.Ok() && r.content == content && len <= r.Writable()
    {
      if Writable() < len then MakeSpace(len) else this
    }

    function Append(data: seq<Byte>): (r: Layout)
      requires Ok()
      ensures r.Ok() && r.content == content + data
    {
      var e := EnsureWritable(|data|);
      e.(content := e.content + data)
    }

    function Retrieve(len: nat): (r: Layout)
      requires Ok()
      ensures r.Ok()
    {
      if len < |content|
      then Layout(size, reader + len, content[len..])
      else Layout(size, CHEAP_PREPEND, [])
    }

    /** The number of bytes one readv may deliver: the writable tail, and the side
        buffer when the tail is the smaller of the two. */
    function ReadCapacity(): nat
      requires Ok()
    {
      Writable() + if Writable() < EXTRA_BUF then EXTRA_BUF else 0
    }

    /** What the readFd code does with a successful read. */
    function ReadFd(received: seq<Byte>): Layout
      requires Ok()
    {
      var writable := Writable();
      if |received| <= writable
      then this.(content := content + received)
      else this.(content := content + received[..writable]).Append(received[writable..])
    }
  }

  function Fresh(initialSize: nat): Layout {
    Layout(CHEAP_PREPEND + initialSize, CHEAP_PREPEND, [])
  }

  /** A scatter read leaves the buffer exactly as one append of the received bytes
      would, indices and array size included, and whatever spills fits the side
      buffer. */
  lemma ScatterReadIsAppend(b: Layout, received: seq<Byte>)
    requires b.Ok() && |received| <= b.ReadCapacity()
    ensures b.ReadFd(received) == b.Append(received)
    ensures |received| - b.Writable() <= EXTRA_BUF
  {
    var writable := b.Writable();
    if writable < |received| {
      assert b.content + received[..writable] + received[writable..] == b.content + received;
    }
  }

  /** Retrieving takes exactly so many bytes from the front and leaves the array as it
      is; taking them all gives the whole room behind the prepend area back. */
  lemma RetrieveTakesPrefix(b: Layout, len: nat)
    requires b.Ok()
    ensures var r := b.Retrieve(len);
            && r.size == b.size
            && (len <= |b.content| ==> b.content == b.content[..len] + r.content)
            && (len >= |b.content| ==> r.content == [] && r.Writable() == b.size - CHEAP_PREPEND)
            && (len < |b.content| ==> r.Writable() == b.Writable())
  {
  }

  // ---------------------------------------------------------------- runs

  datatype Op =
    | AppendOp(data: seq<Byte>)
    | RetrieveOp(len: nat)
    | ReadFdOp(received: seq<Byte>)

  predicate CanApply(b: Layout, op: Op)
    requires b.Ok()
  {
    op.ReadFdOp? ==> |op.received| <= b.ReadCapacity()
  }

  function Apply(b: Layout, op: Op): (r: Layout)
    requires b.Ok() && CanApply(b, op)
    ensures r.Ok()
  {
    match op
    case AppendOp(data) => b.Append(data)
    case RetrieveOp(len) => b.Retrieve(len)
    case ReadFdOp(received) => ScatterReadIsAppend(b, received); b.ReadFd(received)
  }

  predicate Legal(b: Layout, ops: seq<Op>)
    requires b.Ok()
    decreases |ops|
  {
    ops == [] || (CanApply(b, ops[0]) && Legal(Apply(b, ops[0]), ops[1..]))
  }

  function Run(b: Layout, ops: seq<Op>): (r: Layout)
    requires b.Ok() && Legal(b, ops)
    ensures r.Ok()
    decreases |ops|
  {
    if ops == [] then b else Run(Apply(b, ops[0]), ops[1..])
  }

  /** The bytes one operation puts in. */
  function Input(op: Op): seq<Byte> {
    match op
    case AppendOp(data) => data
    case RetrieveOp(_) => []
    case ReadFdOp(received) => received
  }

  /** The bytes one operation takes out of the given unread ones. */
  function Output(unread: seq<Byte>, op: Op): seq<Byte> {
    if op.RetrieveOp? then unread[..if op.len < |unread| then op.len else |unread|] else []
  }

  function Fed(ops: seq<Op>): seq<Byte> {
    if ops == [] then [] else Input(ops[0]) + Fed(ops[1..])
  }

  function Taken(unread: seq<Byte>, ops: seq<Op>): seq<Byte>
    decreases |ops|
  {
    if ops == [] then []
    else
      var out := Output(unread, ops[0]);
      out + Taken((unread + Input(ops[0]))[|out|..], ops[1..])
  }

  /** The largest number of unread bytes a run ever holds. */
  function Peak(b: Layout, ops: seq<Op>): nat
    requires b.Ok() && Legal(b, ops)
    decreases |ops|
  {
    if ops == [] then |b.content| else Max(|b.content|, Peak(Apply(b, ops[0]), ops[1..]))
  }

  lemma StepIsByteQueue(b: Layout, op: Op)
    requires b.Ok() && CanApply(b, op)
    ensures Output(b.content, op) <= b.content
    ensures Apply(b, op).content == (b.content + Input(op))[|Output(b.content, op)|..]
  {
    match op
    case AppendOp(data) =>
    case ReadFdOp(received) => ScatterReadIsAppend(b, received);
    case RetrieveOp(len) => assert b.content + Input(op) == b.content;
  }

  /** First in, first out, nothing lost and nothing invented, through every growth
      and every compaction: what was taken out, then what is still unread, is what
      was unread at the start, then what was put in. */
  lemma {:induction false} RunIsByteQueue(b: Layout, ops: seq<Op>)
    requires b.Ok() && Legal(b, ops)
    ensures Taken(b.content, ops) + Run(b, ops).content == b.content + Fed(ops)
    decreases |ops|
  {
    if ops == [] {
      assert b.content + Fed(ops) == b.content;
    } else {
      StepIsByteQueue(b, ops[0]);
      var out, rest := Output(b.content, ops[0]), Apply(b, ops[0]).content;
      var next := Run(Apply(b, ops[0]), ops[1..]).content;
      RunIsByteQueue(Apply(b, ops[0]), ops[1..]);
      assert out + rest == b.content + Input(ops[0]);
      Regroup(out, rest, Taken(rest, ops[1..]), next, b.content, Input(ops[0]), Fed(ops[1..]));
    }
  }

  lemma Regroup(out: seq<Byte>, rest: seq<Byte>, taken: seq<Byte>, last: seq<Byte>,
                first: seq<Byte>, input: seq<Byte>, fed: seq<Byte>)
    requires out + rest == first + input && taken + last == rest + fed
    ensures (out + taken) + last == first + (input + fed)
  {
    assert (out + taken) + last == out + (taken + last) == (out + rest) + fed;
    assert first + (input + fed) == (first + input) + fed;
  }

  /** One operation grows the array only when the bytes it then holds need more
      than half of the new room. */
  lemma StepStorage(b: Layout, op: Op)
    requires b.Ok() && CanApply(b, op)
    ensures Apply(b, op).size <= Max(b.size, CHEAP_PREPEND + 2 * |Apply(b, op).content|)
  {
    if op.ReadFdOp? {
      ScatterReadIsAppend(b, op.received);
    }
  }

  /** Over any run the array stays within its first size or twice the peak of unread
      bytes: space in front of the reader is reused before the array grows. */
  lemma {:induction false} StorageBound(b: Layout, ops: seq<Op>)
    requires b.Ok() && Legal(b, ops)
    ensures Run(b, ops).size <= Max(b.size, CHEAP_PREPEND + 2 * Peak(b, ops))
    decreases |ops|
  {
    if ops != [] {
      var c := Apply(b, ops[0]);
      StepStorage(b, ops[0]);
      PeakCoversStart(c, ops[1..]);
      StorageBound(c, ops[1..]);
      assert Peak(c, ops[1..]) <= Peak(b, ops);
    }
  }

  lemma PeakCoversStart(b: Layout, ops: seq<Op>)
    requires b.Ok() && Legal(b, ops)
    ensures |b.content| <= Peak(b, ops)
  {
  }

  // ---------------------------------------------------------------- the class

  lemma SliceConcat(a: array<Byte>, lo: nat, mid: nat, hi: nat)
    requires lo <= mid <= hi <= a.Length
    ensures a[lo..hi] == a[lo..mid] + a[mid..hi]
  {
  }

  lemma SliceIs(a: array<Byte>, lo: nat, hi: nat, content: seq<Byte>)
    requires lo <= hi <= a.Length && |content| == hi - lo
    requires forall j :: 0 <= j < |content| ==> a[lo + j] == content[j]
    ensures a[lo..hi] == content
  {
  }

  /** std::copy to the front of the array, over itself, lowest byte first. */
  method CopyDown(a: array<Byte>, from: nat, count: nat, ghost content: seq<Byte>)
    requires CHEAP_PREPEND <= from && from + count <= a.Length && content == a[from..from + count]
    modifies a
    ensures forall j :: 0 <= j < count ==> a[CHEAP_PREPEND + j] == content[j]
  {
    for k := 0 to count
      invariant forall j :: 0 <= j < k ==> a[CHEAP_PREPEND + j] == content[j]
      invariant forall j :: k <= j < count ==> a[from + j] == content[j]
    {
      a[CHEAP_PREPEND + k] := a[from + k];
    }
  }

  /** What the readv system call returns: the bytes delivered, or an error. */
  datatype ReadResult = Received(data: seq<Byte>) | ReadError(errno: int)

  class Buffer {
    var buffer: array<Byte>
    var readerIndex: nat
    var writerIndex: nat

    predicate Valid()
      reads this
    {
      CHEAP_PREPEND <= readerIndex <= writerIndex <= buffer.Length
    }

    ghost function View(): (b: Layout)
      requires Valid()
      reads this, buffer
      ensures b.Ok()
    {
      Layout(buffer.Length, readerIndex, buffer[readerIndex..writerIndex])
    }

    constructor (initialSize: nat := INITIAL_SIZE)
      ensures Valid() && fresh(buffer) && View() == Fresh(initialSize)
    {
      buffer := new Byte[CHEAP_PREPEND + initialSize](_ => 0);
      readerIndex := CHEAP_PREPEND;
      writerIndex := CHEAP_PREPEND;
    }

    function ReadableBytes(): (n: nat)
      requires Valid()
      reads this, buffer
      ensures n == |View().content|
    {
      writerIndex - readerIndex
    }

    function WritableBytes(): (n: nat)
      requires Valid()
      reads this, buffer
      ensures n == View().Writable()
    {
      buffer.Length - writerIndex
    }

    /** The vector's resize: keeps what fits and fills the rest with zeros. */
    method Resize(size: nat)
      requires Valid() && writerIndex <= size
      modifies this`buffer
      ensures Valid() && fresh(buffer)
      ensures View() == old(View()).(size := size)
    {
      var grown := new Byte[size](_ => 0);
      var kept := if size < buffer.Length then size else buffer.Length;
      for i := 0 to kept
        invariant buffer == old(buffer)
        invariant forall j :: 0 <= j < i ==> grown[j] == buffer[j]
      {
        grown[i] := buffer[i];
      }
      assert grown[readerIndex..writerIndex] == buffer[readerIndex..writerIndex];
      buffer := grown;
    }

    /** Moves the readable bytes down to the front of the array: a forward copy over
        itself, lowest byte first. */
    method MoveDown()
      requires Valid()
      modifies this`readerIndex, this`writerIndex, buffer
      ensures Valid() && View() == old(View()).(reader := CHEAP_PREPEND)
    {
      var from, readable := readerIndex, ReadableBytes();
      ghost var content := View().content;
      CopyDown(buffer, from, readable, content);
      readerIndex := CHEAP_PREPEND;
      writerIndex := readerIndex + readable;
      SliceIs(buffer, readerIndex, writerIndex, content);
    }

    method MakeSpace(len: nat)
      requires Valid()
      modifies this, buffer
      ensures Valid() && (buffer == old(buffer) || fresh(buffer))
      ensures View() == old(View()).MakeSpace(len)
    {
      if WritableBytes() + readerIndex < len + CHEAP_PREPEND {
        Resize(writerIndex + len);
      } else {
        MoveDown();
      }
    }

    method EnsureWritableBytes(len: nat)
      requires Valid()
      modifies this, buffer
      ensures Valid() && (buffer == old(buffer) || fresh(buffer))
      ensures View() == old(View()).EnsureWritable(len)
    {
      if WritableBytes() < len {
        MakeSpace(len);
      }
    }

    /** Copies bytes behind the writer index without moving it; what a kernel read
        into the writable tail does, and the copy inside append. */
    method Fill(data: seq<Byte>)
      requires Valid() && writerIndex + |data| <= buffer.Length
      modifies buffer
      ensures Valid() && View() == old(View())
      ensures buffer[writerIndex..writerIndex + |data|] == data
    {
      for i := 0 to |data|
        invariant forall j :: 0 <= j < i ==> buffer[writerIndex + j] == data[j]
        invariant forall j :: 0 <= j < writerIndex ==> buffer[j] == old(buffer[j])
      {
        buffer[writerIndex + i] := data[i];
      }
      assert buffer[readerIndex..writerIndex] == old(buffer[readerIndex..writerIndex]);
    }

    method Append(data: seq<Byte>)
      requires Valid()
      modifies this, buffer
      ensures Valid() && (buffer == old(buffer) || fresh(buffer))
      ensures View() == old(View()).Append(data)
    {
      EnsureWritableBytes(|data|);
      Fill(data);
      SliceConcat(buffer, readerIndex, writerIndex, writerIndex + |data|);
      writerIndex := writerIndex + |data|;
    }

    method RetrieveAll()
      requires Valid()
      modifies this
      ensures Valid() && buffer == old(buffer)
      ensures View() == Layout(old(View()).size, CHEAP_PREPEND, [])
    {
      readerIndex := CHEAP_PREPEND;
      writerIndex := CHEAP_PREPEND;
    }

    method Retrieve(len: nat)
      requires Valid()
      modifies this
      ensures Valid() && buffer == old(buffer)
      ensures View() == old(View()).Retrieve(len)
    {
      if len < ReadableBytes() {
        readerIndex := readerIndex + len;
        assert buffer[readerIndex..writerIndex] == old(View()).content[len..];
      } else {
        RetrieveAll();
      }
    }

    /** The source reads `len` bytes from the reader index whatever the writer index
        is, so it needs the array to be that long. The result is a prefix of the
        readable bytes exactly when no more than those were asked for. */
    method RetrieveAsString(len: nat) returns (result: seq<Byte>)
      requires Valid() && readerIndex + len <= buffer.Length
      modifies this
      ensures Valid() && buffer == old(buffer)
      ensures |result| == len
      ensures result <= old(View()).content <==> len <= old(ReadableBytes())
      ensures View() == old(View()).Retrieve(len)
      ensures len <= old(ReadableBytes()) ==> result + View().content == old(View()).content
    {
      result := buffer[readerIndex..readerIndex + len];
      if len <= ReadableBytes() {
        assert result == View().content[..len];
      }
      Retrieve(len);
    }

    method RetrieveAllAsString() returns (result: seq<Byte>)
      requires Valid()
      modifies this
      ensures Valid() && buffer == old(buffer)
      ensures result == old(View()).content && View().content == []
      ensures View() == Layout(old(View()).size, CHEAP_PREPEND, [])
    {
      result := RetrieveAsString(ReadableBytes());
    }

    /** The kernel fills the writable tail first and then the side buffer; the code
        after it appends the spill. */
    method ReadFd(env: ReadResult) returns (n: int, savedErrno: int)
      requires Valid()
      requires env.Received? ==> |env.data| <= View().ReadCapacity()
      modifies this, buffer
      ensures Valid() && (buffer == old(buffer) || fresh(buffer))
      ensures env.ReadError? ==> n == -1 && savedErrno == env.errno && View() == old(View())
      ensures env.Received? ==> n == |env.data| && View() == old(View()).ReadFd(env.data)
    {
      savedErrno := 0;
      if env.ReadError? {
        savedErrno := env.errno;
        return -1, savedErrno;
      }
      var writable := WritableBytes();
      n := |env.data|;
      var direct := if n <= writable then n else writable;
      Fill(env.data[..direct]);
      SliceConcat(buffer, readerIndex, writerIndex, writerIndex + direct);
      var extrabuf := env.data[direct..];
      writerIndex := if n <= writable then writerIndex + n else buffer.Length;
      assert View() == old(View()).(content := old(View()).content + env.data[..direct]);
      assert n <= writable ==> env.data[..direct] == env.data;
      if writable < n {
        Append(extrabuf);
      }
    }
  }
}
