/**
 * Growable byte buffers with head/filled bookkeeping (BufferBase and its
 * ReadBuffer / WriteBuffer variants).
 *
 * The backing std::vector<char> is the sequence field `buf`; a C `char` is a
 * Dafny `char` (only its identity matters here). The three C++ classes share
 * one Dafny class: ReadBuffer adds AddFilled/Head/ReadPtr, WriteBuffer adds
 * Append/Ptr/PushHead/Size, and nothing else differs between them.
 */
module Buffers {

  /** Capacity of a buffer built with the default argument. */
  const DefaultCapacity: nat := 512

  /** A vector of `n` value-initialised chars, as `std::vector<char>(n)` or `resize` makes them. */
  function Zeros(n: nat): (r: seq<char>)
    ensures |r| == n && forall i :: 0 <= i < n ==> r[i] == '\0'
  {
    seq(n, _ => '\0')
  }

  class Buffer {
    /** m_buf: the backing storage; its length is the capacity. */
    var buf: seq<char>
    /** m_head: offset of the first unconsumed byte. */
    var head: nat
    /** m_filled: number of valid bytes starting at `head`. */
    var filled: nat

    ghost predicate Valid()
      reads this
    {
      head + filled <= |buf|
    }

    /** The bytes held: filled bytes starting at head. */
    ghost function Contents(): seq<char>
      reads this
      requires Valid()
    {
      buf[head..head + filled]
    }

    /** BufferBase(std::size_t reserve = 512). */
    constructor (reserve: nat)
      ensures Valid() && head == 0 && filled == 0
      ensures buf == Zeros(reserve) && Contents() == []
    {
      buf := Zeros(reserve);
      head, filled := 0, 0;
    }

    /** cut(): forget everything; the storage is kept. */
    method CutAll()
      requires Valid()
      modifies this
      ensures Valid() && head == 0 && filled == 0 && buf == old(buf)
      ensures Contents() == []
    {
      head, filled := 0, 0;
    }

    /**
     * cut(size, move): consume `size` bytes from the front. When the buffer
     * becomes empty the head returns to 0; with `move` the remaining bytes are
     * shifted to offset 0 (memmove, done here one byte at a time from the front,
     * which is what memmove does when the destination lies below the source).
     */
    method Cut(size: nat, move: bool)
      requires Valid() && size <= filled
      modifies this
      ensures Valid() && |buf| == old(|buf|)
      ensures filled == old(filled) - size
      ensures Contents() == old(Contents())[size..]
      ensures filled == 0 ==> head == 0
      ensures move ==> head == 0
      ensures !move ==> buf == old(buf) && head == (if filled == 0 then 0 else old(head) + size)
      ensures buf[filled..] == old(buf)[filled..]
    {
      ghost var rest := Contents()[size..];
      head := head + size;
      filled := filled - size;
      if filled == 0 {
        head := 0;
      }
      assert Contents() == rest;
      if move && head > 0 {
        assert filled > 0;
        var src := HeadPtr();
        ghost var before := buf;
        var i := 0;
        while i < filled
          invariant 0 <= i <= filled && head == src && filled == |rest|
          invariant |buf| == |before| && src + filled <= |buf|
          invariant forall k :: 0 <= k < filled ==> before[src + k] == rest[k]
          invariant forall k :: 0 <= k < i ==> buf[k] == rest[k]
          invariant forall k :: i <= k < |buf| ==> buf[k] == before[k]
        {
          buf := buf[i := buf[src + i]];
          i := i + 1;
        }
        head := 0;
        assert Contents() == rest;
      }
    }

    /** empty(). */
    predicate Empty()
      reads this
      requires Valid()
      ensures Empty() <==> Contents() == []
    {
      filled == 0
    }

    /** headPtr(): offset of the first held byte; the source asserts it lies inside the storage. */
    function HeadPtr(): (p: nat)
      reads this
      requires Valid() && head < |buf|
      ensures p < |buf| && p + filled <= |buf|
      ensures buf[p..p + filled] == Contents()
    {
      head
    }

    /** endPtr(): offset just past the held bytes; the source asserts (strictly) that it lies inside the storage. */
    function EndPtr(): (p: nat)
      reads this
      requires Valid() && head + filled < |buf|
      ensures p < |buf| && |buf| - p == RestSize()
      ensures buf[head..p] == Contents()
    {
      head + filled
    }

    /** filledSize(). */
    function FilledSize(): (n: nat)
      reads this
      requires Valid()
      ensures n == |Contents()|
    {
      filled
    }

    /** restSize(): free room after the held bytes. */
    function RestSize(): (n: nat)
      reads this
      requires Valid()
      ensures head + filled + n == |buf|
    {
      |buf| - (head + filled)
    }

    /**
     * reserve(size, trim): make sure `size` bytes of room follow the held
     * bytes, first by compacting (when `trim`), then by growing the storage to
     * exactly head + filled + size.
     */
    method Reserve(size: nat, trim: bool)
      requires Valid()
      modifies this
      ensures Valid() && RestSize() >= size
      ensures Contents() == old(Contents())
      ensures old(RestSize()) >= size ==> buf == old(buf) && head == old(head)
      ensures old(RestSize()) < size ==> head == (if trim then 0 else old(head))
      ensures |buf| == Max(old(|buf|), head + filled + size)
      ensures !trim ==> buf[..head + filled] == old(buf)[..head + filled]
    {
      if RestSize() >= size {
        return;
      }
      if trim {
        Cut(0, true);
      }
      if RestSize() >= size {
        return;
      }
      buf := buf + Zeros(head + filled + size - |buf|);
    }

    /**
     * Copies `data` into the storage at offset `p` (the memcpy of append, or
     * the kernel filling the read pointer on read()).
     */
    method Store(p: nat, data: seq<char>)
      requires p + |data| <= |buf|
      modifies this
      ensures head == old(head) && filled == old(filled)
      ensures buf == old(buf)[..p] + data + old(buf)[p + |data|..]
    {
      ghost var before := buf;
      var i := 0;
      while i < |data|
        invariant 0 <= i <= |data| && |buf| == |before|
        invariant head == old(head) && filled == old(filled)
        invariant forall k :: 0 <= k < |buf| ==> buf[k] == (if p <= k < p + i then data[k - p] else before[k])
      {
        buf := buf[p + i := data[i]];
        i := i + 1;
      }
      assert buf == before[..p] + data + before[p + |data|..];
    }

    /** ReadBuffer::addFilled(size): count `size` more bytes as held; the source asserts they fit. */
    method AddFilled(size: nat)
      requires Valid() && head + filled + size <= |buf|
      modifies this
      ensures Valid() && buf == old(buf) && head == old(head)
      ensures filled == old(filled) + size
      ensures Contents() == old(Contents()) + buf[old(head + filled)..old(head + filled) + size]
    {
      filled := filled + size;
    }

    /** read() filling the storage at the read pointer with `data`, then addFilled(|data|). */
    method Receive(data: seq<char>)
      requires Valid() && |data| <= RestSize()
      modifies this
      ensures Valid() && |buf| == |old(buf)| && head == old(head)
      ensures Contents() == old(Contents()) + data
      ensures RestSize() == old(RestSize()) - |data|
    {
      var p := head + filled;
      ghost var held := Contents();
      Store(p, data);
      assert buf[p..p + |data|] == data;
      assert buf[head..p] == held;
      AddFilled(|data|);
    }

    /** ReadBuffer::head(). */
    function Head(): (p: nat)
      reads this
      requires Valid() && head < |buf|
      ensures p == head && buf[p..p + filled] == Contents()
    {
      HeadPtr()
    }

    /** ReadBuffer::readPtr(): where the next read lands; the free room starts there. */
    function ReadPtr(): (p: nat)
      reads this
      requires Valid() && head + filled < |buf|
      ensures p == head + filled && |buf| - p == RestSize() > 0
    {
      EndPtr()
    }

    /**
     * WriteBuffer::append(buf, size, trim = false): reserve room, copy the
     * bytes behind the held ones and count them. endPtr's strict assertion
     * means an empty append into a full buffer is refused. (The C++ function
     * is declared to return the buffer but has no return statement.)
     */
    method Append(data: seq<char>, trim: bool)
      requires Valid() && (|data| > 0 || RestSize() > 0)
      modifies this
      ensures Valid()
      ensures Contents() == old(Contents()) + data
      ensures !trim ==> head == old(head)
    {
      Reserve(|data|, trim);
      var p := head + filled;
      ghost var held := Contents();
      Store(p, data);
      filled := filled + |data|;
      assert Contents() == buf[head..p] + buf[p..p + |data|];
    }

    /** WriteBuffer::ptr(). */
    function Ptr(): (p: nat)
      reads this
      requires Valid() && head < |buf|
      ensures p == head && buf[p..p + filled] == Contents()
    {
      HeadPtr()
    }

    /** WriteBuffer::pushHead(size, trim = false) is cut(size, trim). */
    method PushHead(size: nat, trim: bool)
      requires Valid() && size <= filled
      modifies this
      ensures Valid() && filled == old(filled) - size
      ensures Contents() == old(Contents())[size..]
      ensures trim ==> head == 0
    {
      Cut(size, trim);
    }

    /** WriteBuffer::size(). */
    function Size(): (n: nat)
      reads this
      requires Valid()
      ensures n == FilledSize()
    {
      filled
    }
  }

  function Max(a: nat, b: nat): nat {
    if a < b then b else a
  }

  /** A cut or an append on the held bytes. */
  datatype Op = AppendOp(data: seq<char>) | CutOp(n: nat)

  /** The held bytes after a run of operations, as the Cut and Append contracts describe them. */
  function Apply(held: seq<char>, ops: seq<Op>): seq<char>
    decreases |ops|
  {
    if ops == [] then held
    else match ops[0]
      case AppendOp(d) => Apply(held + d, ops[1..])
      case CutOp(n) => Apply(if n <= |held| then held[n..] else [], ops[1..])
  }

  /** Every cut in the run stays within what is held at that point. */
  predicate CutsFit(held: seq<char>, ops: seq<Op>)
    decreases |ops|
  {
    ops == [] ||
    match ops[0]
      case AppendOp(d) => CutsFit(held + d, ops[1..])
      case CutOp(n) => n <= |held| && CutsFit(held[n..], ops[1..])
  }

  function Appended(ops: seq<Op>): nat {
    if ops == [] then 0 else (if ops[0].AppendOp? then |ops[0].data| else 0) + Appended(ops[1..])
  }

  function CutTotal(ops: seq<Op>): nat {
    if ops == [] then 0 else (if ops[0].CutOp? then ops[0].n else 0) + CutTotal(ops[1..])
  }

  /** After appends and cuts, the filled size is what was appended minus what was cut. */
  lemma {:induction false} FilledAfterOps(held: seq<char>, ops: seq<Op>)
    requires CutsFit(held, ops)
    ensures |Apply(held, ops)| + CutTotal(ops) == |held| + Appended(ops)
    decreases |ops|
  {
    if ops != [] {
      match ops[0]
      case AppendOp(d) => FilledAfterOps(held + d, ops[1..]);
      case CutOp(n) => FilledAfterOps(held[n..], ops[1..]);
    }
  }
}
