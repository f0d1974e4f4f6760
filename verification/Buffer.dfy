/** The growable byte buffer of Buffer.h and Buffer.cc.
  *
  * `Layout` is the value of a buffer (vector size, reader cursor, readable bytes);
  * the functions on it say what each operation does to the cursors and the
  * allocation. Class `Buffer` does the work on a real array and is proved equal to
  * them. The lemmas then speak about every sequence of operations.
  */
module Buffers {
  type byte = b: int | 0 <= b < 256

  const CHEAP_PREPEND: nat := 8
  const INITIAL_SIZE: nat := 1024
  const EXTRA_SIZE: nat := 65536

  /** The outcome of `readv` or `write`: a system call either fails or moves bytes. */
  datatype ReadResult = Got(data: seq<byte>) | ReadFailed
  datatype WriteResult = Wrote(count: nat) | WouldBlock | WriteFailed

  function Max(a: nat, b: nat): nat { if a < b then b else a }

  function Min(a: nat, b: nat): nat { if a < b then a else b }

  // ---------------------------------------------------------------- values

  datatype Layout = Layout(size: nat, reader: nat, content: seq<byte>) {
    function Writer(): nat { reader + |content| }

    ghost predicate Fits() {
      && CHEAP_PREPEND <= reader
      && Writer() <= size
      && (content == [] ==> reader == CHEAP_PREPEND)
    }

    function Writable(): nat requires Writer() <= size { size - Writer() }

    function RetrieveAll(): Layout { this.(reader := CHEAP_PREPEND, content := []) }

    function Retrieve(n: nat): Layout {
      if n < |content| then this.(reader := reader + n, content := content[n..]) else RetrieveAll()
    }

    function Reserve(n: nat): Layout
      requires Writer() <= size
    {
      if n <= Writable() then this
      else if Writable() + reader < n + CHEAP_PREPEND then this.(size := Writer() + n)
      else this.(reader := CHEAP_PREPEND)
    }

    function Append(data: seq<byte>): Layout
      requires Writer() <= size
    {
      Reserve(|data|).(content := content + data)
    }

    /** How many bytes one `readv` can deliver: the tail, plus the stack segment when the tail is short. */
    function ReadCapacity(): nat
      requires Writer() <= size
    {
      Writable() + if Writable() < EXTRA_SIZE then EXTRA_SIZE else 0
    }

    function ReadFd(data: seq<byte>): Layout
      requires Writer() <= size
    {
      if |data| <= Writable() then this.(content := content + data)
      else this.(content := content + data[..Writable()]).Append(data[Writable()..])
    }
  }

  function Fresh(initialSize: nat): Layout { Layout(CHEAP_PREPEND + initialSize, CHEAP_PREPEND, []) }

  // ---------------------------------------------------------------- runs

  datatype Op =
    | AppendOp(data: seq<byte>)
    | RetrieveOp(n: nat)
    | RetrieveAllOp
    | ReserveOp(n: nat)
    | ReadFdOp(data: seq<byte>)

  ghost function Apply(l: Layout, op: Op): (r: Layout)
    requires l.Fits()
    ensures r.Fits()
  {
    match op
    case AppendOp(d) => l.Append(d)
    case RetrieveOp(n) => l.Retrieve(n)
    case RetrieveAllOp => l.RetrieveAll()
    case ReserveOp(n) => l.Reserve(n)
    case ReadFdOp(d) => l.ReadFd(d)
  }

  ghost function Run(l: Layout, ops: seq<Op>): (r: Layout)
    requires l.Fits()
    ensures r.Fits()
    decreases |ops|
  {
    if ops == [] then l else Run(Apply(l, ops[0]), ops[1..])
  }

  /** What one operation puts in, takes out, and leaves behind in a plain byte queue. */
  function InOf(op: Op): seq<byte> {
    match op
    case AppendOp(d) => d
    case ReadFdOp(d) => d
    case _ => []
  }

  function OutOf(q: seq<byte>, op: Op): seq<byte> {
    match op
    case RetrieveOp(n) => if n < |q| then q[..n] else q
    case RetrieveAllOp => q
    case _ => []
  }

  function QueueStep(q: seq<byte>, op: Op): seq<byte> { (q + InOf(op))[|OutOf(q, op)|..] }

  function QueueRun(q: seq<byte>, ops: seq<Op>): seq<byte>
    decreases |ops|
  {
    if ops == [] then q else QueueRun(QueueStep(q, ops[0]), ops[1..])
  }

  function PutIn(ops: seq<Op>): seq<byte>
    decreases |ops|
  {
    if ops == [] then [] else InOf(ops[0]) + PutIn(ops[1..])
  }

  function TakenOut(q: seq<byte>, ops: seq<Op>): seq<byte>
    decreases |ops|
  {
    if ops == [] then [] else OutOf(q, ops[0]) + TakenOut(QueueStep(q, ops[0]), ops[1..])
  }

  /** The largest amount of data an operation, and a run, asks the buffer to hold at once. */
  ghost function Demand(l: Layout, op: Op): nat
    requires l.Fits()
  {
    if op.ReserveOp? then |l.content| + op.n else |Apply(l, op).content|
  }

  ghost function Peak(l: Layout, ops: seq<Op>): nat
    requires l.Fits()
    decreases |ops|
  {
    if ops == [] then 0 else Max(Demand(l, ops[0]), Peak(Apply(l, ops[0]), ops[1..]))
  }

  lemma ReadFdAppends(l: Layout, data: seq<byte>)
    requires l.Fits()
    ensures l.ReadFd(data).content == l.content + data
  {}

  /** Compaction moves data only towards the front, so the overlapping forward copy is safe;
    * either way the view is untouched and the requested room exists afterwards. */
  lemma ReserveMakesRoom(l: Layout, n: nat)
    requires l.Fits()
    ensures var r := l.Reserve(n);
      && r.Fits() && r.content == l.content && n <= r.Writable()
      && (r.size == l.size && r.reader != l.reader ==> r.reader < l.reader)
      && (r.size != l.size ==> r.reader == l.reader && l.size < r.size)
  {}

  /** The allocation changes only when the free bytes at both ends together, less the eight that stay
    * in front, are too few; then exactly the room asked for is there. Otherwise the bytes move,
    * to the very front, exactly when the tail alone is too short. */
  lemma ReserveIsFrugal(l: Layout, n: nat)
    requires l.Fits()
    ensures var r := l.Reserve(n); var free := l.size - |l.content|;
      && (r.size != l.size <==> free < n + CHEAP_PREPEND && l.size - l.Writer() < n)
      && (r.size != l.size ==> r.Writable() == n && r.reader == l.reader)
      && (r.size == l.size && l.size - l.Writer() < n ==> r.reader == CHEAP_PREPEND)
      && (l.size - l.Writer() >= n ==> r == l)
  {}

  /** A read that fits into the tail leaves the allocation alone; another makes room for the overflow. */
  lemma ReadFdIsFrugal(l: Layout, data: seq<byte>)
    requires l.Fits()
    ensures |data| <= l.size - l.Writer() ==> l.ReadFd(data).size == l.size
    ensures |data| > l.size - l.Writer() ==>
      l.ReadFd(data).size == Max(l.size, if l.size - |l.content| >= |data| + CHEAP_PREPEND then l.size
                                         else l.reader + |l.content| + |data|)
  {}

  lemma StepRefinesQueue(l: Layout, op: Op)
    requires l.Fits()
    ensures Apply(l, op).content == QueueStep(l.content, op)
    ensures l.content + InOf(op) == OutOf(l.content, op) + QueueStep(l.content, op)
  {}

  /** Whatever the cursors and the allocation do, the bytes behave as a first-in first-out queue. */
  lemma {:induction false} RunRefinesQueue(l: Layout, ops: seq<Op>)
    requires l.Fits()
    ensures Run(l, ops).content == QueueRun(l.content, ops)
    decreases |ops|
  {
    if ops != [] {
      StepRefinesQueue(l, ops[0]);
      RunRefinesQueue(Apply(l, ops[0]), ops[1..]);
    }
  }

  lemma Conserve(q: seq<byte>, i: seq<byte>, o: seq<byte>, q': seq<byte>, i': seq<byte>, o': seq<byte>, end: seq<byte>)
    requires q + i == o + q' && q' + i' == o' + end
    ensures q + (i + i') == (o + o') + end
  {
    assert q + (i + i') == (q + i) + i' == (o + q') + i' == o + (q' + i') == o + (o' + end);
  }

  /** No byte is lost, invented, duplicated or reordered by any run. */
  lemma {:induction false} RunConservesBytes(l: Layout, ops: seq<Op>)
    requires l.Fits()
    ensures l.content + PutIn(ops) == TakenOut(l.content, ops) + Run(l, ops).content
    decreases |ops|
  {
    if ops != [] {
      StepRefinesQueue(l, ops[0]);
      RunConservesBytes(Apply(l, ops[0]), ops[1..]);
      var q := l.content;
      var q' := QueueStep(q, ops[0]);
      Conserve(q, InOf(ops[0]), OutOf(q, ops[0]), q', PutIn(ops[1..]), TakenOut(q', ops[1..]), Run(l, ops).content);
    }
  }

  /** The most bytes a run needs whose peak demand is `peak`. */
  function Ceiling(peak: nat): nat { if peak >= 2 then 6 + 2 * peak else 7 + 2 * peak }

  lemma StepSpace(l: Layout, op: Op)
    requires l.Fits()
    ensures Apply(l, op).size <= Max(l.size, Ceiling(Demand(l, op)))
  {}

  /** Memory stays proportional to the largest backlog: no sequence of operations can
    * push the allocation beyond its start or twice the peak plus six bytes. */
  lemma {:induction false} SpaceBound(l: Layout, ops: seq<Op>)
    requires l.Fits()
    ensures Run(l, ops).size <= Max(l.size, Ceiling(Peak(l, ops))) <= Max(l.size, 7 + 2 * Peak(l, ops))
    decreases |ops|
  {
    if ops != [] {
      StepSpace(l, ops[0]);
      SpaceBound(Apply(l, ops[0]), ops[1..]);
    }
  }

  lemma FreshSpaceBound(initialSize: nat, ops: seq<Op>)
    ensures Fresh(initialSize).Fits()
    ensures Run(Fresh(initialSize), ops).size
         <= Max(CHEAP_PREPEND + initialSize, Ceiling(Peak(Fresh(initialSize), ops)))
  {
    SpaceBound(Fresh(initialSize), ops);
  }

  lemma RunFrom(l: Layout, op: Op, ops: seq<Op>)
    requires l.Fits()
    ensures Run(l, [op] + ops) == Run(Apply(l, op), ops)
    ensures Peak(l, [op] + ops) == Max(Demand(l, op), Peak(Apply(l, op), ops))
  {
    assert ([op] + ops)[1..] == ops;
  }

  /** The bound is reached, for every peak: fill an empty buffer with all but one byte of it,
    * take out all but one, and fill it again. */
  lemma SpaceBoundIsTight(peak: nat, data: seq<byte>) returns (ops: seq<Op>)
    requires peak > 0 && |data| == if peak == 1 then 1 else peak - 1
    ensures Peak(Fresh(0), ops) == peak && Run(Fresh(0), ops).size == Ceiling(peak)
  {
    var l0 := Fresh(0);
    var l1 := Apply(l0, AppendOp(data));
    if peak == 1 {
      ops := [AppendOp(data)] + [];
      RunFrom(l0, AppendOp(data), []);
    } else {
      var take := RetrieveOp(peak - 2);
      var l2 := Apply(l1, take);
      ops := [AppendOp(data)] + ([take] + ([AppendOp(data)] + []));
      RunFrom(l2, AppendOp(data), []);
      RunFrom(l1, take, [AppendOp(data)] + []);
      RunFrom(l0, AppendOp(data), [take] + ([AppendOp(data)] + []));
    }
  }

  lemma Reassociate(x: seq<byte>, y: seq<byte>, z: seq<byte>)
    ensures x + (y + z) == (x + y) + z
  {}

  lemma Joined(s: seq<byte>, i: nat, j: nat, k: nat)
    requires i <= j <= k <= |s|
    ensures s[i..k] == s[i..j] + s[j..k]
  {}

  // ---------------------------------------------------------------- the class

  class Buffer {
    var buffer: array<byte>
    var readerIndex: nat
    var writerIndex: nat

    ghost predicate Valid()
      reads this, buffer
    {
      && CHEAP_PREPEND <= readerIndex <= writerIndex <= buffer.Length
      && (readerIndex == writerIndex ==> readerIndex == CHEAP_PREPEND)
    }

    ghost function Value(): (l: Layout)
      requires Valid()
      reads this, buffer
      ensures l.Fits()
    {
      Layout(buffer.Length, readerIndex, buffer[readerIndex..writerIndex])
    }

    constructor (initialSize: nat)
      ensures Valid() && fresh(buffer)
      ensures Value() == Fresh(initialSize)
    {
      buffer := new byte[CHEAP_PREPEND + initialSize](_ => 0);
      readerIndex, writerIndex := CHEAP_PREPEND, CHEAP_PREPEND;
    }

    function ReadableBytes(): nat
      requires Valid()
      reads this, buffer
      ensures ReadableBytes() == |Value().content|
    { writerIndex - readerIndex }

    function WritableBytes(): nat
      requires Valid()
      reads this, buffer
      ensures WritableBytes() == Value().Writable()
    { buffer.Length - writerIndex }

    method RetrieveAll()
      requires Valid()
      modifies this`readerIndex, this`writerIndex
      ensures Valid() && buffer == old(buffer)
      ensures Value() == old(Value()).RetrieveAll()
    {
      readerIndex, writerIndex := CHEAP_PREPEND, CHEAP_PREPEND;
    }

    method Retrieve(len: nat)
      requires Valid()
      modifies this`readerIndex, this`writerIndex
      ensures Valid() && buffer == old(buffer)
      ensures Value() == old(Value()).Retrieve(len)
    {
      if len < ReadableBytes() {
        readerIndex := readerIndex + len;
      } else {
        RetrieveAll();
      }
    }

    /** The string constructor reads `len` bytes from `peek()`, so the caller must not ask for more than there is. */
    method RetrieveAsString(len: nat) returns (result: seq<byte>)
      requires Valid() && len <= ReadableBytes()
      modifies this`readerIndex, this`writerIndex
      ensures Valid() && buffer == old(buffer)
      ensures result == old(Value().content)[..len] && Value().content == old(Value().content)[len..]
      ensures Value() == old(Value()).Retrieve(len)
    {
      result := buffer[readerIndex..readerIndex + len];
      Joined(buffer[..], readerIndex, readerIndex + len, writerIndex);
      assert Value().content[len..] == buffer[readerIndex + len..writerIndex];
      Retrieve(len);
    }

    /** Ascending copy within the array; the target starts before the source. */
    method SlideToFront()
      requires Valid() && CHEAP_PREPEND < readerIndex
      modifies buffer, this`readerIndex, this`writerIndex
      ensures Valid() && buffer == old(buffer)
      ensures Value() == old(Value()).(reader := CHEAP_PREPEND)
    {
      var readable := ReadableBytes();
      ghost var was := buffer[..];
      for i := 0 to readable
        modifies buffer
        invariant forall k :: CHEAP_PREPEND <= k < CHEAP_PREPEND + i ==>
          buffer[k] == was[k - CHEAP_PREPEND + readerIndex]
        invariant forall k :: CHEAP_PREPEND + i <= k < buffer.Length ==> buffer[k] == was[k]
      {
        buffer[CHEAP_PREPEND + i] := buffer[readerIndex + i];
      }
      assert buffer[CHEAP_PREPEND..CHEAP_PREPEND + readable] == was[readerIndex..writerIndex];
      readerIndex := CHEAP_PREPEND;
      writerIndex := readerIndex + readable;
    }

    /** Grow at the end, or slide the readable bytes to the front with an ascending copy. */
    method MakeSpace(len: nat)
      requires Valid() && WritableBytes() < len
      modifies this, buffer
      ensures Valid() && (buffer == old(buffer) || fresh(buffer))
      ensures Value() == old(Value()).Reserve(len)
    {
      if WritableBytes() + readerIndex < len + CHEAP_PREPEND {
        var grown := new byte[writerIndex + len](_ => 0);
        forall i | 0 <= i < buffer.Length { grown[i] := buffer[i]; }
        buffer := grown;
      } else {
        SlideToFront();
      }
    }

    method EnsureWriteableBytes(len: nat)
      requires Valid()
      modifies this, buffer
      ensures Valid() && (buffer == old(buffer) || fresh(buffer))
      ensures Value() == old(Value()).Reserve(len) && len <= WritableBytes()
    {
      ReserveMakesRoom(Value(), len);
      if WritableBytes() < len {
        MakeSpace(len);
      }
    }

    /** Copy `data` to the write cursor without moving it. */
    method FillTail(data: seq<byte>)
      requires Valid() && |data| <= WritableBytes()
      modifies buffer
      ensures Valid() && Value() == old(Value())
      ensures buffer[writerIndex..writerIndex + |data|] == data
    {
      ghost var was := Value().content;
      for i := 0 to |data|
        invariant buffer[readerIndex..writerIndex] == was
        invariant forall k :: 0 <= k < i ==> buffer[writerIndex + k] == data[k]
      {
        buffer[writerIndex + i] := data[i];
      }
    }

    /** ... and then move it past them. */
    method Extend(data: seq<byte>)
      requires Valid() && |data| <= WritableBytes()
      modifies buffer, this`writerIndex
      ensures Valid() && Value() == old(Value()).(content := old(Value().content) + data)
    {
      ghost var start, was := writerIndex, Value().content;
      FillTail(data);
      writerIndex := writerIndex + |data|;
      Joined(buffer[..], readerIndex, start, writerIndex);
      assert buffer[readerIndex..start] == was;
    }

    method Append(data: seq<byte>)
      requires Valid()
      modifies this, buffer
      ensures Valid() && (buffer == old(buffer) || fresh(buffer))
      ensures Value() == old(Value()).Append(data) && Value().content == old(Value().content) + data
    {
      EnsureWriteableBytes(|data|);
      Extend(data);
    }

    /** `kernel` is what `readv` does: it fills the tail of the buffer first and the stack
      * segment second, and can deliver any amount up to the room offered to it. */
    method ReadFd(kernel: ReadResult) returns (n: int)
      requires Valid()
      requires kernel.Got? ==> |kernel.data| <= Value().ReadCapacity()
      modifies this, buffer
      ensures Valid() && (buffer == old(buffer) || fresh(buffer))
      ensures kernel.ReadFailed? ==> n == -1 && Value() == old(Value())
      ensures kernel.Got? ==> n == |kernel.data| && Value() == old(Value()).ReadFd(kernel.data)
      ensures kernel.Got? ==> Value().content == old(Value().content) + kernel.data
    {
      if kernel.Got? { ReadFdAppends(Value(), kernel.data); }
      if kernel.ReadFailed? { return -1; }
      var data, writable := kernel.data, WritableBytes();
      n := |data|;
      if n <= writable {
        Extend(data);
      } else {
        var extrabuf := new byte[EXTRA_SIZE](_ => 0);
        forall i | 0 <= i < n - writable { extrabuf[i] := data[writable + i]; }
        assert extrabuf[..n - writable] == data[writable..];
        Extend(data[..writable]);
        Append(extrabuf[..n - writable]);
      }
    }

    /** `write` on the readable bytes: the kernel takes a prefix; the buffer itself is not touched. */
    method WriteFd(kernel: WriteResult) returns (n: int, taken: seq<byte>)
      requires Valid()
      requires kernel.Wrote? ==> kernel.count <= ReadableBytes()
      ensures kernel.Wrote? ==> n == kernel.count && taken == Value().content[..n]
      ensures !kernel.Wrote? ==> n == -1 && taken == []
    {
      if !kernel.Wrote? { return -1, []; }
      n := kernel.count;
      taken := buffer[readerIndex..readerIndex + n];
    }
  }
}
