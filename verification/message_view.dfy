/** An invoke message as a reader sees it that knows only the offsets of the packed structures:
    the header, every descriptor, and every mapping with its scatter list. */
module MessageView {
  import opened Wrappers
  import opened Wire
  import opened Layout
  import opened Marshal
  import opened MessageFill
  import opened MessageRead

  // ---------------------------------------------------------------- fields

  lemma DivideTwice(n: nat, p: nat)
    requires p > 0
    ensures n % (256 * p) == n % 256 + 256 * (n / 256 % p)
  {
    var q := n / 256;
    var low := n % 256 + 256 * (q % p);
    Regrouped(p, q / p);
    assert n == (256 * p) * (q / p) + low;
    Remainder(n, 256 * p, q / p, low);
  }

  lemma Regrouped(p: nat, k: nat)
    ensures 256 * (p * k) == (256 * p) * k
  {
  }

  lemma Gap(d: nat, a: nat, b: nat)
    requires a < b
    ensures d * a + d <= d * b
  {
    Product(d, a, b - a);
    Product(d, 1, b - a - 1);
  }

  lemma Product(d: nat, a: nat, b: nat)
    ensures d * (a + b) == d * a + d * b && d * b >= 0
  {
  }

  lemma Remainder(n: nat, d: nat, q: nat, r: nat)
    requires d > 0 && n == d * q + r && r < d
    ensures n % d == r
  {
    var k := n / d;
    var p, p' := d * k, d * q;
    assert n == p + n % d;
    if k < q { Gap(d, k, q); }
    if q < k { Gap(d, q, k); }
  }

  /** A field of `k` bytes keeps the low `8 * k` bits. */
  lemma {:induction false} FieldKeepsLow(n: nat, k: nat)
    ensures FromLittleEndian(LittleEndian(n, k)) == n % Power256(k)
    decreases k
  {
    if k > 0 {
      FieldKeepsLow(n / 256, k - 1);
      assert LittleEndian(n, k)[1..] == LittleEndian(n / 256, k - 1);
      DivideTwice(n, Power256(k - 1));
    }
  }

  lemma Power256Values()
    ensures Power256(2) == 0x1_0000 && Power256(4) == U32_LIMIT && Power256(8) == U64_LIMIT
  {
    assert Power256(2) == 256 * (256 * Power256(0));
    Power256Of8();
  }

  /** The last field of what stands at `at`, and what stands before it. */
  lemma LastField(msg: seq<Byte>, at: nat, pre: seq<Byte>, n: nat, k: nat)
    requires Holds(msg, at, pre + LittleEndian(n, k))
    ensures Holds(msg, at, pre) && at + |pre| + k <= |msg|
    ensures Field(msg, at + |pre|, k) == n % Power256(k)
  {
    var f := LittleEndian(n, k);
    assert pre + f + [] == pre + f && [] + pre + f == pre + f;
    HoldsPart(msg, at, pre, f, []);
    HoldsPart(msg, at, [], pre, f);
    FieldKeepsLow(n, k);
  }

  // ---------------------------------------------------------------- the header

  /** `struct virt_invoke_msg`, field by field. */
  ghost predicate SeesHeader(msg: seq<Byte>, h: Header, size: nat) {
    && 46 <= |msg|
    && Field(msg, 0, 4) == h.pid % U32_LIMIT
    && Field(msg, 4, 4) == h.tid % U32_LIMIT
    && Field(msg, 8, 4) == h.cid % U32_LIMIT
    && Field(msg, 12, 4) == h.cmd % U32_LIMIT
    && Field(msg, 16, 4) == size % U32_LIMIT
    && Field(msg, 20, 2) == h.msgid % 0x1_0000
    && Field(msg, 22, 4) == 0xffff_ffff
    && Field(msg, 26, 4) == h.handle % U32_LIMIT
    && Field(msg, 30, 4) == h.sc % U32_LIMIT
    && Field(msg, 34, 4) == h.attrs % U32_LIMIT
    && Field(msg, 38, 8) == h.seqNum % U64_LIMIT
  }

  lemma HeaderIsSeen(msg: seq<Byte>, h: Header, size: nat)
    requires Holds(msg, 0, HeaderBytes(h, size))
    ensures SeesHeader(msg, h, size)
  {
    hide LittleEndian, FromLittleEndian, Power256, Holds, Field;
    Power256Values();
    var p1 := LittleEndian(h.pid, 4);
    var p2 := p1 + LittleEndian(h.tid, 4);
    var p3 := p2 + LittleEndian(Unsigned32(h.cid), 4);
    var p4 := p3 + LittleEndian(h.cmd, 4);
    var p5 := p4 + LittleEndian(size, 4);
    var p6 := p5 + LittleEndian(h.msgid, 2);
    var p7 := p6 + LittleEndian(0xffff_ffff, 4);
    var p8 := p7 + LittleEndian(h.handle, 4);
    var p9 := p8 + LittleEndian(h.sc, 4);
    var p10 := p9 + LittleEndian(h.attrs, 4);
    LastField(msg, 0, p10, h.seqNum, 8);
    LastField(msg, 0, p9, h.attrs, 4);
    LastField(msg, 0, p8, h.sc, 4);
    LastField(msg, 0, p7, h.handle, 4);
    LastField(msg, 0, p6, 0xffff_ffff, 4);
    LastField(msg, 0, p5, h.msgid, 2);
    LastField(msg, 0, p4, size, 4);
    LastField(msg, 0, p3, h.cmd, 4);
    LastField(msg, 0, p2, Unsigned32(h.cid), 4);
    LastField(msg, 0, p1, h.tid, 4);
    assert [] + p1 == p1;
    LastField(msg, 0, [], h.pid, 4);
  }

  /** The remote side finds every field of the header at its place. */
  lemma RemoteSeesHeader(was: seq<Byte>, tx: seq<Byte>, h: Header, c: Call, l: Laid)
    requires CallOk(c) && Message(was, tx, h, c, l)
    ensures SeesHeader(tx, h, l.size)
  {
    hide HeaderBytes, Placed, Holds, Agree, MemOf, MovedSeq, Offset, SeesHeader;
    HeaderIsSeen(tx, h, l.size);
  }

  /** Until the remote side writes its result, reading the message back reports an error: the place
      that is read is the one that was preset. */
  lemma UnansweredReadsAsError(was: seq<Byte>, tx: seq<Byte>, h: Header, c: Call, l: Laid)
    requires CallOk(c) && Message(was, tx, h, c, l)
    ensures RESULT_AT + 4 <= |tx| && Field(tx, RESULT_AT, 4) == 0xffff_ffff
  {
    hide Message, Field;
    RemoteSeesHeader(was, tx, h, c, l);
  }

  /** The four lists behind the descriptors are cleared, and the payload starts behind them. */
  lemma RemoteSeesLists(was: seq<Byte>, tx: seq<Byte>, h: Header, c: Call, l: Laid, k: nat)
    requires CallOk(c) && Message(was, tx, h, c, l)
    ensures var lists := 46 + 40 * Total(c);
            && WireSlot(tx, Total(c), 0) == lists + 8 * 16 + 4 * 64 + 4 + 8 * 12 <= |tx|
            && (lists <= k < lists + 484 ==> tx[k] == 0)
  {
    hide HeaderBytes, Placed, Agree, MemOf, MovedSeq, Offset;
    var lists := DescAt(Total(c));
    assert Holds(tx, lists, Zeros(LISTS_LEN));
    if lists <= k < lists + 484 { assert tx[lists..lists + 484][k - lists] == tx[k]; }
  }

  // ---------------------------------------------------------------- descriptors and mappings

  /** `struct virt_fastrpc_buf`, field by field. */
  ghost predicate SeesDesc(msg: seq<Byte>, at: nat, attrs: nat, pv: nat, bufLen: nat, offset: nat, payloadLen: nat) {
    && at + 40 <= |msg|
    && Field(msg, at, 4) == attrs && Field(msg, at + 4, 4) == 0 && Field(msg, at + 8, 8) == pv
    && Field(msg, at + 16, 8) == bufLen && Field(msg, at + 24, 8) == offset
    && Field(msg, at + 32, 8) == payloadLen % U64_LIMIT
  }

  /** `struct virt_fastrpc_mapping` and its scatter list, field by field. */
  ghost predicate SeesMapping(msg: seq<Byte>, at: nat, fd: int, refs: int, va: U64, len: nat, sgl: seq<Sg>) {
    && at + 32 + 16 * |sgl| <= |msg|
    && Field(msg, at, 4) == fd % U32_LIMIT && Field(msg, at + 4, 4) == refs % U32_LIMIT
    && Field(msg, at + 8, 8) == va && Field(msg, at + 16, 8) == len % U64_LIMIT
    && Field(msg, at + 24, 4) == 1 && Field(msg, at + 28, 4) == |sgl| % U32_LIMIT
    && forall j :: 0 <= j < |sgl| ==>
         Field(msg, at + 32 + 16 * j, 8) == sgl[j].pv && Field(msg, at + 40 + 16 * j, 8) == sgl[j].len
  }

  lemma DescIsSeen(msg: seq<Byte>, at: nat, d: Rpra)
    requires Holds(msg, at, RpraBytes(d))
    requires d.attrs < U32_LIMIT && d.crc == 0 && d.pv < U64_LIMIT && d.bufLen < U64_LIMIT && d.offset < U64_LIMIT
    ensures SeesDesc(msg, at, d.attrs, d.pv, d.bufLen, d.offset, d.payloadLen)
  {
    hide LittleEndian, FromLittleEndian, Power256, Holds, Field;
    Power256Values();
    var p1 := LittleEndian(d.attrs, 4);
    var p2 := p1 + LittleEndian(d.crc, 4);
    var p3 := p2 + LittleEndian(d.pv, 8);
    var p4 := p3 + LittleEndian(d.bufLen, 8);
    var p5 := p4 + LittleEndian(d.offset, 8);
    LastField(msg, at, p5, d.payloadLen, 8);
    LastField(msg, at, p4, d.offset, 8);
    LastField(msg, at, p3, d.bufLen, 8);
    LastField(msg, at, p2, d.pv, 8);
    LastField(msg, at, p1, d.crc, 4);
    assert [] + p1 == p1;
    LastField(msg, at, [], d.attrs, 4);
  }

  lemma {:induction false} SglIsSeen(msg: seq<Byte>, at: nat, sgl: seq<Sg>)
    requires Holds(msg, at, SglBytes(sgl))
    ensures at + 16 * |sgl| <= |msg|
    ensures forall j :: 0 <= j < |sgl| ==>
              Field(msg, at + 16 * j, 8) == sgl[j].pv && Field(msg, at + 16 * j + 8, 8) == sgl[j].len
    decreases |sgl|
  {
    hide LittleEndian, FromLittleEndian, Power256, Field;
    HoldsLength(msg, at, SglBytes(sgl));
    if sgl != [] {
      Power256Values();
      var n := |sgl| - 1;
      var rest, last := sgl[..n], sgl[n];
      hide Holds;
      LastField(msg, at, SglBytes(rest) + LittleEndian(last.pv, 8), last.len, 8);
      LastField(msg, at, SglBytes(rest), last.pv, 8);
      SglIsSeen(msg, at, rest);
    }
  }

  lemma MappingIsSeen(msg: seq<Byte>, at: nat, fd: int, refs: int, va: U64, len: nat, sgl: seq<Sg>)
    requires Holds(msg, at, MappingBytes(fd, refs, va, len, sgl))
    ensures SeesMapping(msg, at, fd, refs, va, len, sgl)
  {
    hide LittleEndian, FromLittleEndian, Power256, Holds, Field, SglBytes;
    Power256Values();
    var p1 := LittleEndian(Unsigned32(fd), 4);
    var p2 := p1 + LittleEndian(Unsigned32(refs), 4);
    var p3 := p2 + LittleEndian(va, 8);
    var p4 := p3 + LittleEndian(len, 8);
    var p5 := p4 + LittleEndian(MAP_ATTR_CACHED, 4);
    var p6 := p5 + LittleEndian(|sgl|, 4);
    var list := SglBytes(sgl);
    assert p6 + list + [] == p6 + list && [] + p6 + list == p6 + list;
    HoldsPart(msg, at, p6, list, []);
    HoldsPart(msg, at, [], p6, list);
    SglIsSeen(msg, at + 32, sgl);
    LastField(msg, at, p5, |sgl|, 4);
    LastField(msg, at, p4, MAP_ATTR_CACHED, 4);
    LastField(msg, at, p3, len, 8);
    LastField(msg, at, p2, va, 8);
    LastField(msg, at, p1, Unsigned32(refs), 4);
    assert [] + p1 == p1;
    LastField(msg, at, [], Unsigned32(fd), 4);
  }

  // ---------------------------------------------------------------- where the slots are

  /** Argument `i` gets a descriptor: every buffer does, and a handle with a mapping. */
  predicate Described(c: Call, i: nat) {
    i < |c.args| || (i < Total(c) && c.handles[i - |c.args|].mapping.Some?)
  }

  /** Where an argument without a descriptor leaves the bytes as they were, they say length 0. */
  ghost predicate NothingStale(was: seq<Byte>, c: Call, n: nat)
    requires n <= Total(c) && DescAt(n) <= |was|
  {
    forall i :: 0 <= i < n && !Described(c, i) ==> Field(was, 46 + 40 * i + 32, 8) == 0
  }

  /** The piece of a described argument has a descriptor that carries its length; the others
      take no room. */
  lemma PieceDesc(c: Call, moved: seq<Option<Internal>>, i: nat)
    requires i < Total(c) && |moved| == |c.args|
    ensures var p := PieceOf(c, moved, i);
            if Described(c, i) then
              && p.desc.Some? && p.desc.value.payloadLen == p.len
              && p.desc.value.attrs < U32_LIMIT && p.desc.value.crc == 0 && p.desc.value.pv < U64_LIMIT
              && p.desc.value.bufLen < U64_LIMIT && p.desc.value.offset < U64_LIMIT
            else p.desc.None? && p.len == 0
  {
    hide MappingBytes;
  }

  /** A reader that adds up the payload lengths never stops short of the slot of an argument, and
      it gets there exactly when no stale length stands in its way: a handle without a mapping
      keeps whatever the message buffer held at its descriptor. */
  lemma {:induction false} SlotExact(was: seq<Byte>, tx: seq<Byte>, c: Call, moved: seq<Option<Internal>>, n: nat)
    requires |moved| == |c.args| && n <= Total(c) && SlotAt(c, moved, Total(c)) <= |tx| == |was| < U64_LIMIT
    requires forall i :: 0 <= i < Total(c) ==> Placed(was, tx, c, moved, i)
    ensures DescAt(n) <= |tx| && WireSlot(tx, Total(c), n) >= SlotAt(c, moved, n)
    ensures WireSlot(tx, Total(c), n) == SlotAt(c, moved, n) <==> NothingStale(was, c, n)
  {
    hide RpraBytes, Holds, BufPiece, HandlePiece, Field, Agree;
    DescRoom(c, moved, n);
    if n > 0 {
      SlotExact(was, tx, c, moved, n - 1);
      SlotsInOrder(c, moved, n - 1, Total(c));
      StepExact(was, tx, c, moved, n - 1);
    }
  }

  lemma StepExact(was: seq<Byte>, tx: seq<Byte>, c: Call, moved: seq<Option<Internal>>, i: nat)
    requires i < Total(c) && |moved| == |c.args| && DescAt(i + 1) <= |tx| == |was|
    requires Placed(was, tx, c, moved, i) && SlotAt(c, moved, i) + PieceOf(c, moved, i).len <= |tx| < U64_LIMIT
    ensures PayloadLenAt(tx, i) == if Described(c, i) then PieceOf(c, moved, i).len else Field(was, 46 + 40 * i + 32, 8)
    ensures !Described(c, i) ==> PieceOf(c, moved, i).len == 0
  {
    hide RpraBytes, Holds, BufPiece, HandlePiece, Field, SlotAt;
    PieceDesc(c, moved, i);
    if Described(c, i) {
      DescIsSeen(tx, DescAt(i), PieceOf(c, moved, i).desc.value);
    } else {
      SameField(was, tx, DescAt(i), DescAt(i + 1), 32, 8);
    }
  }

  lemma SameField(a: seq<Byte>, b: seq<Byte>, lo: nat, hi: nat, at: nat, k: nat)
    requires Agree(a, b, lo, hi) && lo + at + k <= hi
    ensures Field(a, lo + at, k) == Field(b, lo + at, k)
  {
    hide FromLittleEndian;
    assert a[lo + at..lo + at + k] == b[lo + at..lo + at + k];
  }

  lemma DescRoom(c: Call, moved: seq<Option<Internal>>, n: nat)
    requires |moved| == |c.args| && n <= Total(c)
    ensures DescAt(n) <= DescAt(Total(c)) <= SlotAt(c, moved, Total(c))
  {
    hide BufPiece, HandlePiece, Offset;
  }

  // ---------------------------------------------------------------- every kind of argument

  /** What is moved: plain buffers of a page or more, if the message would not fit otherwise. */
  lemma WhatMoves(was: seq<Byte>, tx: seq<Byte>, h: Header, c: Call, l: Laid, i: nat)
    requires CallOk(c) && Message(was, tx, h, c, l) && i < |c.args|
    ensures |l.moved| == |c.args|
    ensures l.moved[i] == if TooBig(c, |tx|) && !(c.args[i].len > 0 && c.args[i].ion.Some?) && c.args[i].len >= 4096
                          then c.args[i].fate.offer else None
  {
    hide Placed, Holds, HeaderBytes, MemOf, Agree, Offset, SlotAt, TooBig;
  }

  lemma ArgumentIsSeen(was: seq<Byte>, tx: seq<Byte>, h: Header, c: Call, l: Laid, i: nat)
    requires CallOk(c) && Message(was, tx, h, c, l) && |tx| < U64_LIMIT && i < Total(c) && Described(c, i)
    ensures |l.moved| == |c.args| && DescAt(i) <= |tx| == |was|
    ensures WireSlot(tx, Total(c), i) == SlotAt(c, l.moved, i) <==> NothingStale(was, c, i)
    ensures var p := PieceOf(c, l.moved, i);
            && p.desc.Some?
            && SeesDesc(tx, DescAt(i), p.desc.value.attrs, p.desc.value.pv, p.desc.value.bufLen, p.desc.value.offset, p.len)
            && (p.image.Some? ==> Holds(tx, SlotAt(c, l.moved, i), p.image.value))
  {
    assert |was| == |tx|;
    hide RpraBytes, Holds, BufPiece, HandlePiece, Field, Agree, HeaderBytes, MemOf, TooBig, Moves, SeesDesc, WireSlot, Offset;
    assert l.moved == MovedSeq(c, TooBig(c, |tx|));
    SlotExact(was, tx, c, l.moved, i);
    PieceDesc(c, l.moved, i);
    assert Placed(was, tx, c, l.moved, i);
    DescIsSeen(tx, DescAt(i), PieceOf(c, l.moved, i).desc.value);
  }

  /** A buffer passed with a mapping: the remote side finds the mapping, and where in it the
      buffer lies. */
  lemma RemoteSeesMapped(was: seq<Byte>, tx: seq<Byte>, h: Header, c: Call, l: Laid, i: nat)
    requires CallOk(c) && Message(was, tx, h, c, l) && |tx| < U64_LIMIT
    requires i < |c.args| && c.args[i].len > 0 && c.args[i].ion.Some? && c.args[i].fate.vmStart.Some?
    ensures DescAt(i) <= |tx|
    ensures var a, m := c.args[i], c.args[i].ion.value;
            && SeesDesc(tx, 46 + 40 * i, if a.keepMap then 5 else 1, a.pv, a.len,
                        (a.pv - a.fate.vmStart.value) % U64_LIMIT, 32 + 16 * |m.sgl|)
            && SeesMapping(tx, WireSlot(tx, Total(c), i), m.fd, m.refs, m.va, m.len, m.sgl)
  {
    hide Message, Placed, Holds, Field, SeesDesc, SeesMapping, WireSlot, SlotAt, MappingBytes, CallOk, TooBig, Offset, PayloadStart;
    ArgumentIsSeen(was, tx, h, c, l, i);
    assert NothingStale(was, c, i);
    var m := c.args[i].ion.value;
    MappingIsSeen(tx, SlotAt(c, l.moved, i), m.fd, m.refs, m.va, m.len, m.sgl);
  }

  /** ... and the buffer lies inside the dma-buf: a message is laid out only if the area of every
      mapped buffer was found and, on unsigned sums, offset and length stay within its size. */
  lemma MappedLiesInside(c: Call, descOk: bool, msgOk: bool, bufSize: nat, i: nat)
    requires Succeeds(c, descOk, msgOk, bufSize) && i < |c.args| && c.args[i].len > 0 && c.args[i].ion.Some?
    ensures c.args[i].fate.mapOk && c.args[i].fate.vmStart.Some?
    ensures var a := c.args[i];
            var offset := (a.pv - a.fate.vmStart.value) % U64_LIMIT;
            && (offset + a.len) % U64_LIMIT <= a.ion.value.size
            && (offset + a.len < U64_LIMIT ==> offset + a.len <= a.ion.value.size)
  {
    assert FillOk(c, i);
    hide Offset, MovedSeq, TooBig;
  }

  /** A plain buffer of a page or more in a message that would not fit otherwise: the remote side
      finds the internal buffer. */
  lemma RemoteSeesInternal(was: seq<Byte>, tx: seq<Byte>, h: Header, c: Call, l: Laid, i: nat)
    requires CallOk(c) && Message(was, tx, h, c, l) && |tx| < U64_LIMIT
    requires i < |c.args| && c.args[i].ion.None? && c.args[i].len >= 4096 && c.args[i].fate.offer.Some? && TooBig(c, |tx|)
    ensures DescAt(i) <= |tx|
    ensures var a, b := c.args[i], c.args[i].fate.offer.value;
            && SeesDesc(tx, 46 + 40 * i, 2, a.pv, a.len, 0, 32 + 16 * |b.sgl|)
            && SeesMapping(tx, WireSlot(tx, Total(c), i), -1, 1, b.va, |b.mem|, b.sgl)
  {
    hide Message, Placed, Holds, Field, SeesDesc, SeesMapping, WireSlot, SlotAt, MappingBytes, CallOk, TooBig, Offset, PayloadStart;
    ArgumentIsSeen(was, tx, h, c, l, i);
    assert NothingStale(was, c, i);
    WhatMoves(was, tx, h, c, l, i);
    var b := c.args[i].fate.offer.value;
    MappingIsSeen(tx, SlotAt(c, l.moved, i), -1, 1, b.va, |b.mem|, b.sgl);
  }

  lemma SlotInside(was: seq<Byte>, tx: seq<Byte>, h: Header, c: Call, l: Laid, i: nat)
    requires CallOk(c) && Message(was, tx, h, c, l) && i < Total(c)
    ensures |l.moved| == |c.args| && SlotAt(c, l.moved, i) + PieceOf(c, l.moved, i).len <= |tx|
    ensures i < |c.args| ==> |c.args[i].data| == c.args[i].len
  {
    hide Holds, HeaderBytes, MemOf, Agree, BufPiece, HandlePiece;
    assert Placed(was, tx, c, l.moved, i);
  }

  /** Every other buffer lies in the message itself. */
  lemma RemoteSeesInline(was: seq<Byte>, tx: seq<Byte>, h: Header, c: Call, l: Laid, i: nat)
    requires CallOk(c) && Message(was, tx, h, c, l) && |tx| < U64_LIMIT
    requires i < |c.args| && (c.args[i].len == 0 || (c.args[i].ion.None? && (c.args[i].len < 4096 || !TooBig(c, |tx|))))
    ensures DescAt(i) <= |tx| && SeesDesc(tx, 46 + 40 * i, 0, c.args[i].pv, c.args[i].len, 0, c.args[i].len)
    ensures WireSlot(tx, Total(c), i) + c.args[i].len <= |tx|
    ensures var at := WireSlot(tx, Total(c), i); i < c.inbufs ==> tx[at..at + c.args[i].len] == c.args[i].data
  {
    hide Message, Placed, Field, SeesDesc, WireSlot, SlotAt, CallOk, TooBig, Offset, PayloadStart, MappingBytes;
    ArgumentIsSeen(was, tx, h, c, l, i);
    assert NothingStale(was, c, i);
    WhatMoves(was, tx, h, c, l, i);
    SlotInside(was, tx, h, c, l, i);
  }

  /** A DMA handle with a mapping. Its descriptor is always there; a reader finds the mapping
      unless a handle before it has none and left a stale length in its way. */
  lemma RemoteSeesHandle(was: seq<Byte>, tx: seq<Byte>, h: Header, c: Call, l: Laid, i: nat)
    requires CallOk(c) && Message(was, tx, h, c, l) && |tx| < U64_LIMIT && i < |c.handles| && c.handles[i].mapping.Some?
    ensures DescAt(|c.args| + i) <= |tx| == |was|
    ensures var x, m := c.handles[i], c.handles[i].mapping.value;
            && SeesDesc(tx, 46 + 40 * (|c.args| + i), 1, 0, x.len, x.pv, 32 + 16 * |m.sgl|)
            && (NothingStale(was, c, |c.args| + i) ==>
                  SeesMapping(tx, WireSlot(tx, Total(c), |c.args| + i), m.fd, m.refs, m.va, x.len, m.sgl))
  {
    hide Message, Placed, Holds, Field, SeesDesc, SeesMapping, WireSlot, SlotAt, MappingBytes, CallOk, TooBig, Offset, PayloadStart, NothingStale;
    var n := |c.args| + i;
    ArgumentIsSeen(was, tx, h, c, l, n);
    var m := c.handles[i].mapping.value;
    MappingIsSeen(tx, SlotAt(c, l.moved, n), m.fd, m.refs, m.va, c.handles[i].len, m.sgl);
  }

  /** The concrete case: a handle without a mapping before one with a mapping, laid out in a message
      buffer that holds anything but zero at the place of the first payload length. Everything
      succeeds, and a reader that adds up the lengths does not find the second handle. */
  lemma StaleLengthMisleads(was: seq<Byte>, tx: seq<Byte>, h: Header, l: Laid)
    requires var c := Call([], 0, [Handle(0, 0, None, true), Handle(8, 0, Some(MapInfo(3, 1, 0, 8, 8, [])), true)]);
             CallOk(c) && Message(was, tx, h, c, l) && |tx| < U64_LIMIT
    requires |was| == |tx| && Field(was, 78, 8) != 0
    ensures var c := Call([], 0, [Handle(0, 0, None, true), Handle(8, 0, Some(MapInfo(3, 1, 0, 8, 8, [])), true)]);
            && Described(c, 1) && DescAt(1) <= |tx|
            && WireSlot(tx, Total(c), 1) != SlotAt(c, l.moved, 1)
  {
    var c := Call([], 0, [Handle(0, 0, None, true), Handle(8, 0, Some(MapInfo(3, 1, 0, 8, 8, [])), true)]);
    hide Message, Placed, Holds, Field, SeesDesc, WireSlot, SlotAt, Offset, PayloadStart, PieceOf;
    ArgumentIsSeen(was, tx, h, c, l, 1);
    assert !Described(c, 0);
    assert !NothingStale(was, c, 1);
  }
}
