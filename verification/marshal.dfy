/** The passes of `get_args` that size and fill an invoke message, and the read-back of
    `put_args`. */
module Marshal {
  import opened Wrappers
  import opened Wire
  import opened Layout

  /** `Overrun` stands for a read beyond the end of the response buffer. */
  datatype Errno = MapFailed | ENOMEM | NoArea | EFAULT | CopyFault | EINVAL | Remote(result: nat) | Overrun

  datatype Header = Header(pid: nat, tid: nat, cid: int, cmd: nat, msgid: nat, handle: nat, sc: nat, attrs: nat, seqNum: nat)

  /** What a successful `get_args` leaves in the context; `mem` holds the contents of the
      internal buffers. */
  datatype Laid = Laid(size: nat, outOffset: nat, moved: seq<Option<Internal>>, mem: seq<seq<Byte>>)

  const RESULT_AT := 22

  function HeaderBytes(h: Header, size: nat): (b: seq<Byte>)
    ensures |b| == SIZEOF_INVOKE_MSG
  {
    LittleEndian(h.pid, 4) + LittleEndian(h.tid, 4) + LittleEndian(Unsigned32(h.cid), 4) + LittleEndian(h.cmd, 4)
    + LittleEndian(size, 4) + LittleEndian(h.msgid, 2) + LittleEndian(0xffff_ffff, 4) + LittleEndian(h.handle, 4)
    + LittleEndian(h.sc, 4) + LittleEndian(h.attrs, 4) + LittleEndian(h.seqNum, 8)
  }

  function MovedSeq(c: Call, big: bool): (r: seq<Option<Internal>>)
    ensures |r| == |c.args|
  {
    seq(|c.args|, i requires 0 <= i < |c.args| => MovedTo(c, big, i))
  }

  /** What the fill pass asks of a buffer argument. */
  predicate FillOk(c: Call, i: nat)
    requires i < |c.args|
  {
    if IsIon(c.args[i]) then RangeOk(c.args[i])
    else i < c.inbufs && c.args[i].len > 0 ==> c.args[i].fate.copyOk
  }

  /** What is reported for a buffer argument that cannot be filled in. */
  function FillError(a: Arg): Errno {
    if a.len > 0 && a.ion.Some? then (if a.fate.vmStart.None? then NoArea else EFAULT) else CopyFault
  }

  /** Argument `i` is the first that cannot be filled in. */
  ghost predicate FirstBad(c: Call, i: nat) {
    i < |c.args| && !FillOk(c, i) && forall j :: 0 <= j < i ==> FillOk(c, j)
  }

  /** Some mapping cannot be created. */
  ghost predicate MapsFail(c: Call) {
    || (exists i :: 0 <= i < |c.args| && c.args[i].len > 0 && c.args[i].ion.Some? && !c.args[i].fate.mapOk)
    || exists i :: 0 <= i < |c.handles| && c.handles[i].mapping.Some? && !c.handles[i].mapOk
  }

  /** No internal buffer, no message, or no room in it. */
  ghost predicate NoRoom(c: Call, descOk: bool, msgOk: bool, bufSize: nat) {
    var big := TooBig(c, bufSize);
    || (big && (!descOk || exists i :: 0 <= i < |c.args| && Moves(c.args[i]) && c.args[i].fate.offer.None?))
    || MetaLen(Total(c)) + Offset(c, MovedSeq(c, big), Total(c)) > bufSize
    || !msgOk
  }

  /** Every condition `get_args` tests. */
  ghost predicate Succeeds(c: Call, descOk: bool, msgOk: bool, bufSize: nat) {
    var big := TooBig(c, bufSize);
    && (forall i :: 0 <= i < |c.args| && IsIon(c.args[i]) ==> c.args[i].fate.mapOk)
    && (forall i :: 0 <= i < |c.handles| && c.handles[i].mapping.Some? ==> c.handles[i].mapOk)
    && (big ==> descOk && forall i :: 0 <= i < |c.args| && Moves(c.args[i]) ==> c.args[i].fate.offer.Some?)
    && MetaLen(Total(c)) + Offset(c, MovedSeq(c, big), Total(c)) <= bufSize
    && msgOk
    && forall i :: 0 <= i < |c.args| ==> FillOk(c, i)
  }

  /** Argument `i` is in the message; bytes it does not define are as they `was`. */
  ghost predicate Placed(was: seq<Byte>, tx: seq<Byte>, c: Call, moved: seq<Option<Internal>>, i: nat)
    requires i < Total(c) && |moved| == |c.args|
  {
    var p := PieceOf(c, moved, i);
    var at := SlotAt(c, moved, i);
    && at + p.len <= |tx|
    && (match p.desc
        case Some(d) => Holds(tx, DescAt(i), RpraBytes(d))
        case None => Agree(was, tx, DescAt(i), DescAt(i + 1)))
    && match p.image
       case Some(b) => Holds(tx, at, b)
       case None => Agree(was, tx, at, at + p.len)
  }

  /** The internal buffer of argument `i` holds `mem`: an input's bytes have been copied in. */
  ghost predicate MemOf(c: Call, moved: seq<Option<Internal>>, mem: seq<Byte>, i: nat)
    requires i < |c.args| == |moved|
  {
    match moved[i]
    case None => mem == []
    case Some(b) =>
      && |mem| == |b.mem| >= c.args[i].len
      && if i < c.inbufs then mem[..c.args[i].len] == c.args[i].data else mem == b.mem
  }

  /** The message that a successful `get_args` leaves in the buffer. */
  ghost predicate Message(was: seq<Byte>, tx: seq<Byte>, h: Header, c: Call, l: Laid)
    requires CallOk(c)
  {
    && l.moved == MovedSeq(c, TooBig(c, |tx|))
    && l.size == MetaLen(Total(c)) + Offset(c, l.moved, Total(c)) <= |tx|
    && l.outOffset == Offset(c, l.moved, c.inbufs)
    && Holds(tx, 0, HeaderBytes(h, l.size))
    && (forall i :: 0 <= i < Total(c) ==> Placed(was, tx, c, l.moved, i))
    && Holds(tx, DescAt(Total(c)), Zeros(LISTS_LEN))
    && Agree(was, tx, l.size, |tx|)
    && |l.mem| == |c.args| && forall i :: 0 <= i < |c.args| ==> MemOf(c, l.moved, l.mem[i], i)
  }

  // ---------------------------------------------------------------- sizing

  /** The room of one buffer argument. */
  lemma RoomOfBuffer(c: Call, moved: seq<Option<Internal>>, i: nat)
    requires i < |c.args| == |moved|
    ensures Offset(c, moved, i + 1) == Offset(c, moved, i) +
            if IsIon(c.args[i]) then SizeOfMapping(|c.args[i].ion.value.sgl|)
            else if moved[i].Some? then SizeOfMapping(|moved[i].value.sgl|)
            else c.args[i].len
  {
    hide MappingBytes;
    assert PieceOf(c, moved, i) == BufPiece(c.args[i], moved[i], i < c.inbufs);
  }

  lemma OffsetOfNone(c: Call, moved: seq<Option<Internal>>)
    requires |moved| == |c.args|
    ensures Offset(c, moved, 0) == 0
  {
  }

  /** The first sizing pass: an empty argument takes no room, even with a buffer passed. */
  method SizePass(c: Call) returns (ok: bool, copylen: nat, outOffset: nat)
    requires CallOk(c)
    ensures ok <==> forall i :: 0 <= i < |c.args| && IsIon(c.args[i]) ==> c.args[i].fate.mapOk
    ensures ok ==> copylen == Offset(c, NoneMoved(|c.args|), |c.args|)
    ensures ok ==> outOffset == Offset(c, NoneMoved(|c.args|), c.inbufs)
  {
    hide MappingBytes;
    ok, copylen, outOffset := true, 0, 0;
    var i := 0;
    while i < |c.args|
      invariant 0 <= i <= |c.args|
      invariant copylen == Offset(c, NoneMoved(|c.args|), i)
      invariant outOffset == Offset(c, NoneMoved(|c.args|), if i < c.inbufs then i else c.inbufs)
      invariant forall j :: 0 <= j < i && IsIon(c.args[j]) ==> c.args[j].fate.mapOk
    {
      var len: nat := c.args[i].len;
      if len != 0 {
        if c.args[i].ion.Some? {
          if !c.args[i].fate.mapOk { ok := false; return; }
          len := SizeOfMapping(|c.args[i].ion.value.sgl|);
        }
        copylen := copylen + len;
        if i < c.inbufs { outOffset := outOffset + len; }
      }
      i := i + 1;
    }
  }

  /** The pass over the handles. */
  method HandlePass(c: Call) returns (ok: bool, handlelen: nat)
    ensures ok <==> forall i :: 0 <= i < |c.handles| && c.handles[i].mapping.Some? ==> c.handles[i].mapOk
    ensures ok ==> handlelen == Offset(c, NoneMoved(|c.args|), Total(c)) - Offset(c, NoneMoved(|c.args|), |c.args|)
  {
    hide MappingBytes, BufPiece;
    ok, handlelen := true, 0;
    var i := 0;
    while i < |c.handles|
      invariant 0 <= i <= |c.handles|
      invariant handlelen == Offset(c, NoneMoved(|c.args|), |c.args| + i) - Offset(c, NoneMoved(|c.args|), |c.args|)
      invariant forall j :: 0 <= j < i && c.handles[j].mapping.Some? ==> c.handles[j].mapOk
    {
      if c.handles[i].mapping.Some? {
        if !c.handles[i].mapOk { ok := false; return; }
        handlelen := handlelen + SizeOfMapping(|c.handles[i].mapping.value.sgl|);
      }
      i := i + 1;
    }
  }

  /** The second sizing pass: large plain arguments get internal buffers. */
  method ResizePass(c: Call) returns (ok: bool, moved: seq<Option<Internal>>, copylen: nat, outOffset: nat)
    requires CallOk(c)
    ensures ok <==> forall i :: 0 <= i < |c.args| && Moves(c.args[i]) ==> c.args[i].fate.offer.Some?
    ensures ok ==> moved == MovedSeq(c, true)
    ensures ok ==> copylen == Offset(c, moved, |c.args|) && outOffset == Offset(c, moved, c.inbufs)
  {
    hide MappingBytes, BufPiece, PieceOf, SizeOfMapping, Offset;
    OffsetOfNone(c, MovedSeq(c, true));
    ok, moved, copylen, outOffset := true, [], 0, 0;
    ghost var goal := MovedSeq(c, true);
    var i := 0;
    while i < |c.args|
      invariant 0 <= i <= |c.args| && |moved| == i
      invariant forall j :: 0 <= j < i ==> moved[j] == goal[j]
      invariant copylen == Offset(c, goal, i)
      invariant outOffset == Offset(c, goal, if i < c.inbufs then i else c.inbufs)
      invariant forall j :: 0 <= j < i && Moves(c.args[j]) ==> c.args[j].fate.offer.Some?
    {
      RoomOfBuffer(c, goal, i);
      var len: nat, to := c.args[i].len, None;
      if IsIon(c.args[i]) {
        len := SizeOfMapping(|c.args[i].ion.value.sgl|);
      } else if len >= PAGE_SIZE {
        to := c.args[i].fate.offer;
        if to.None? { ok := false; return; }
        len := SizeOfMapping(|to.value.sgl|);
      }
      moved := moved + [to];
      copylen := copylen + len;
      if i < c.inbufs { outOffset := outOffset + len; }
      i := i + 1;
    }
    assert moved == goal;
  }
}
